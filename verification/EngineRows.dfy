/** What the engine promises about each sequence in each phase of its life, and how every
    kind of cache operation preserves it. */
module EngineRows {
  import opened Options
  import opened Lists
  import opened Network
  import opened Greedy
  import opened Sequences
  import opened PagedForward
  import opened PrefixTrie
  import opened Blocks
  import opened PagedCache
  import opened EngineState

  /** A snapshot of everything a sequence's promise depends on. */
  datatype World = World(net: Net, eos: Option<Token>, bs: nat, tables: seq<seq<nat>>, trie: Node, store: Store)

  ghost predicate EntriesShaped(trie: Node, bs: nat) {
    forall p :: At(trie, p).Some? ==> EntryOk(p, At(trie, p).value, bs)
  }

  ghost predicate WorldOk(w: World) {
    && w.bs > 0 && |w.store| == w.net.numLayers && Distinct(w.trie) && EntriesShaped(w.trie, w.bs)
    && (forall s :: 0 <= s < |w.tables| ==> NoDup(w.tables[s]))
    && TrieHolds(w.net, w.store, w.bs, w.trie)
  }

  /** Admitted: slot taken, shared blocks attached. Filled: prefilled, first token appended.
      Live: prompt stored, decoding. */
  datatype Phase = Admitted | Filled | Live

  /** Blocks from this index on belong to the sequence alone. */
  function Front(phase: Phase, q: Sequence, bs: nat): nat
    requires bs > 0
  {
    if phase == Live then |q.prompt| / bs else q.matched / bs
  }

  /** The token history whose K/V rows the slot holds. */
  function Claimed(phase: Phase, q: Sequence): seq<Token>
    requires q.matched <= |q.prompt| && q.fold <= |q.outputs|
    requires phase == Live ==> q.length < |q.Fed()|
  {
    match phase
    case Admitted => q.prompt[..q.matched]
    case Filled => q.prompt
    case Live =>
      if q.spoiled then []
      else if q.carry.Some? && !q.stale then q.Fed()
      else q.Fed()[..q.length]
  }

  /** The part of the promise that does not look at the cache. */
  ghost predicate Pure(net: Net, eos: Option<Token>, phase: Phase, q: Sequence) {
    && q.status == Running && q.prompt != [] && q.matched <= |q.prompt| && q.fold <= |q.outputs|
    && (q.carry.None? ==> !q.stale) && Excused(q)
    && match phase
       case Admitted =>
         && q.carry.None? && q.length == 0 && q.fold == |q.outputs| && !q.spoiled
         && (q.exact ==> Resumable(net, eos, q))
       case Filled =>
         && q.carry.None? && q.length == |q.prompt| && q.fold + 1 == |q.outputs| && !q.spoiled
         && (q.exact ==> OnTrack(net, eos, q))
       case Live =>
         && |q.prompt| <= q.length && q.fold < |q.outputs| && |q.Fed()| == q.length + 1
         && (q.exact ==> OnTrack(net, eos, q))
         && (!q.spoiled && q.carry.Some? && !q.stale ==> q.carry.value == Next(net, q.Fed()))
  }

  /** A sequence that may (re)start: new, or preempted on its run. */
  ghost predicate Resumable(net: Net, eos: Option<Token>, q: Sequence) {
    Folded(q) && (q.outputs == [] || (OnTrack(net, eos, q) && !q.IsFinished(eos)))
  }

  ghost predicate RowOk(w: World, phase: Phase, q: Sequence) {
    && w.bs > 0 && Pure(w.net, w.eos, phase, q)
    && q.slot.Some? && q.slot.value < |w.tables|
    && Exclusive(w.tables, w.trie, q.slot.value, Front(phase, q, w.bs))
    && Holds(w.net, w.store, w.tables[q.slot.value], w.bs, Claimed(phase, q))
  }

  ghost predicate WaitOk(net: Net, eos: Option<Token>, q: Sequence) {
    && q.status == Waiting && q.slot.None? && q.carry.None? && !q.stale && !q.spoiled && q.matched == 0 && q.length == 0
    && q.prompt != [] && q.fold == |q.outputs| && Excused(q)
    && (q.exact ==> Resumable(net, eos, q))
  }

  /** A finished sequence has reached its stop, and if it kept to its run it has exactly the output
      it would have alone. */
  ghost predicate FinOk(net: Net, eos: Option<Token>, q: Sequence) {
    q.status == Finished && q.IsFinished(eos) && Excused(q) && (q.exact ==> q.orig != [] && q.outputs == Alone(net, eos, q.Req()))
  }

  // ---- frames --------------------------------------------------------------------

  /** Slots grow by fresh blocks. */
  lemma RowGrown(w: World, tables: seq<seq<nat>>, slots: seq<nat>, phase: Phase, q: Sequence)
    requires RowOk(w, phase, q) && OnlyGrown(w.tables, tables, w.trie, slots)
    ensures RowOk(w.(tables := tables), phase, q)
  {
    var s := q.slot.value;
    var toks := Claimed(phase, q);
    assert toks[..|toks|] == toks;
    HoldsPrefix(w.net, w.store, w.tables[s], w.bs, toks, tables[s], |toks|);
    forall k | Front(phase, q, w.bs) <= k < |tables[s]| ensures Owners(tables, w.trie, tables[s][k]) == 1 {
      if k < |w.tables[s]| {
        assert w.tables[s][k] == tables[s][k];
      }
    }
  }

  /** Other slots' private blocks are written. */
  lemma RowWritten(w: World, store: Store, slots: seq<nat>, blocks: set<nat>, phase: Phase, q: Sequence)
    requires RowOk(w, phase, q) && q.slot.value !in slots
    requires WritesWithin(w.net, w.store, store, w.bs, blocks) && Private(w.tables, w.trie, blocks, slots)
    ensures RowOk(w.(store := store), phase, q)
  {
    var table := w.tables[q.slot.value];
    forall b | b in table ensures b !in blocks {
      assert b in blocks ==> PrivateBlock(w.tables, w.trie, b, slots);
    }
    HoldsFrame(w.net, w.store, store, w.bs, blocks, table, Claimed(phase, q));
  }

  /** References move elsewhere: this slot's table stays and its own blocks gain no owner. */
  lemma RowRetied(w: World, tables: seq<seq<nat>>, trie: Node, phase: Phase, q: Sequence)
    requires RowOk(w, phase, q) && |tables| == |w.tables| && tables[q.slot.value] == w.tables[q.slot.value]
    requires forall k :: Front(phase, q, w.bs) <= k < |tables[q.slot.value]| ==>
      Owners(tables, trie, tables[q.slot.value][k]) <= Owners(w.tables, w.trie, tables[q.slot.value][k])
    ensures RowOk(w.(tables := tables, trie := trie), phase, q)
  {
    var s := q.slot.value;
    forall k | Front(phase, q, w.bs) <= k < |tables[s]| ensures Owners(tables, trie, tables[s][k]) == 1 {
      assert Owners(w.tables, w.trie, w.tables[s][k]) == 1;
      TableRefsAtLeast(tables, s, tables[s][k]);
      OccursIn(tables[s], tables[s][k]);
    }
  }

  // ---- one row's forward pass ----------------------------------------------------

  /** Feeding `ver` after the held history `toks` leaves the slot holding `toks + ver`, and
      output `t` picks the greedy token after `toks + ver[..t + 1]`. */
  lemma RowForward(net: Net, was: Store, now: Store, table: seq<nat>, bs: nat, toks: seq<Token>, ver: seq<Token>,
                   outs: seq<Hidden>)
    requires Holds(net, was, table, bs, toks) && |toks| + |ver| <= |table| * bs && |now| == |was|
    requires
      var cells := FlatSlotMapping(table, bs, |toks| + |ver|);
      (GatherRow(net, now, cells), outs)
      == DecodeRun(net, GatherRow(net, was, cells[..|toks|]), Embedded(net, ver, |toks|))
    ensures Holds(net, now, table, bs, toks + ver)
    ensures forall t :: 0 <= t < |ver| ==> net.pick(outs[t]) == Next(net, toks + ver[..t + 1])
  {
    FlatMappingPrefix(table, table, bs, |toks| + |ver|, |toks|);
    EvaluateSplit(net, toks, ver);
    forall t | 0 <= t < |ver| ensures net.pick(outs[t]) == Next(net, toks + ver[..t + 1]) {
      ContinuationPicks(net, toks, ver, t);
    }
  }

  /** The history a plain decode step or a bootstrap continues from, and the token it feeds. */
  lemma LastFed(net: Net, eos: Option<Token>, q: Sequence)
    requires Pure(net, eos, Live, q)
    ensures q.Fed()[..q.length] + [q.LastToken()] == q.Fed()
  {
    assert Last(q.outputs) == Last(q.Fed());
  }

  /** A pass that appends at `base` leaves what the row held below `base` readable. */
  lemma RowKeeps(net: Net, was: Store, now: Store, table: seq<nat>, bs: nat, base: nat, ver: seq<Token>,
                 outs: seq<Hidden>, toks: seq<Token>)
    requires Holds(net, was, table, bs, toks) && |toks| <= base && base + |ver| <= |table| * bs && |now| == |was|
    requires
      var cells := FlatSlotMapping(table, bs, base + |ver|);
      (GatherRow(net, now, cells), outs)
      == DecodeRun(net, GatherRow(net, was, cells[..base]), Embedded(net, ver, base))
    ensures Holds(net, now, table, bs, toks)
  {
    var cells, n := FlatSlotMapping(table, bs, base + |ver|), |toks|;
    FlatMappingPrefix(table, table, bs, base + |ver|, n);
    DecodeRunAppends(net, GatherRow(net, was, cells[..base]), Embedded(net, ver, base));
    var got := GatherRow(net, now, cells);
    forall l | 0 <= l < |now| ensures Gather(net, now[l], cells[..n]) == Gather(net, was[l], cells[..n]) {
      assert got[l][..base] == Gather(net, was[l], cells[..base]);
      assert Gather(net, now[l], cells[..n]) == got[l][..base][..n];
      assert Gather(net, was[l], cells[..n]) == Gather(net, was[l], cells[..base])[..n];
    }
    assert GatherRow(net, now, cells[..n]) == GatherRow(net, was, cells[..n]);
  }

  /** What one row of a pass is fed: its last token, or a carry followed by drafts. */
  ghost predicate FeedOk(q: Sequence, base: nat, ver: seq<Token>)
    requires q.prompt != []
  {
    || (base == q.length && ver == [q.LastToken()])
    || (base == q.length + 1 && ver != [] && q.carry == Some(ver[0]))
  }

  /** What the pass gives back for a row whose slot has no hole. */
  ghost predicate RowResult(net: Net, store: Store, table: seq<nat>, bs: nat, q: Sequence, base: nat,
                            ver: seq<Token>, outs: seq<Hidden>)
    requires q.fold <= |q.outputs| && q.prompt != []
  {
    && |outs| == |ver|
    && (!q.spoiled && base == q.length && ver != [] ==>
          Holds(net, store, table, bs, q.Fed()) && net.pick(outs[0]) == Next(net, q.Fed()))
    && (!q.spoiled && base == q.length + 1 && q.carry.Some? && !q.stale ==>
          && Holds(net, store, table, bs, q.Fed() + ver)
          && forall t :: 0 <= t < |ver| ==> net.pick(outs[t]) == Next(net, q.Fed() + ver[..t + 1]))
  }

  lemma RowAfter(w: World, store: Store, q: Sequence, base: nat, ver: seq<Token>, outs: seq<Hidden>)
    requires RowOk(w, Live, q) && FeedOk(q, base, ver) && |store| == |w.store|
    requires base + |ver| <= |w.tables[q.slot.value]| * w.bs
    requires
      var cells := FlatSlotMapping(w.tables[q.slot.value], w.bs, base + |ver|);
      (GatherRow(w.net, store, cells), outs)
      == DecodeRun(w.net, GatherRow(w.net, w.store, cells[..base]), Embedded(w.net, ver, base))
    ensures RowOk(w.(store := store), Live, q)
    ensures RowResult(w.net, store, w.tables[q.slot.value], w.bs, q, base, ver, outs)
  {
    hide FinishReason, Exclusive, OnTrack, Excused, Next, DecodeRun, Embedded, GatherRow;
    var table := w.tables[q.slot.value];
    if q.spoiled {
      HoldsNothing(w.net, store, table, w.bs);
    } else if base == q.length {
      var toks := q.Fed()[..q.length];
      LastFed(w.net, w.eos, q);
      var claimed := Claimed(Live, q);
      assert claimed[..q.length] == toks;
      HoldsPrefix(w.net, w.store, table, w.bs, claimed, table, q.length);
      RowForward(w.net, w.store, store, table, w.bs, toks, ver, outs);
      assert ver[..1] == ver;
      HoldsPrefix(w.net, store, table, w.bs, q.Fed(), table, q.length);
    } else {
      RowKeeps(w.net, w.store, store, table, w.bs, base, ver, outs, Claimed(Live, q));
      if !q.stale {
        RowForward(w.net, w.store, store, table, w.bs, q.Fed(), ver, outs);
      }
    }
  }

  // ---- life cycle ----------------------------------------------------------------

  lemma NewSequenceWaits(net: Net, eos: Option<Token>, prompt: seq<Token>, maxTokens: nat, ignoreEos: bool,
                         maxLen: Option<nat>)
    requires prompt != []
    ensures WaitOk(net, eos, NewSequence(prompt, maxTokens, ignoreEos, maxLen))
  {
    var q := NewSequence(prompt, maxTokens, ignoreEos, maxLen);
    assert q.outputs[..0] == [] && q.orig + [] == q.orig;
  }

  /** Admission: a slot, and possibly blocks of the longest stored prefix. */
  function Admit(q: Sequence, slot: nat, matched: nat): Sequence {
    q.(slot := Some(slot), matched := matched, status := Running)
  }

  lemma AdmitRow(w: World, q: Sequence, slot: nat, matched: nat)
    requires WaitOk(w.net, w.eos, q) && w.bs > 0 && slot < |w.tables| && matched <= |q.prompt|
    requires matched == |w.tables[slot]| * w.bs
    requires Holds(w.net, w.store, w.tables[slot], w.bs, q.prompt[..matched])
    ensures RowOk(w, Admitted, Admit(q, slot, matched))
  {
    DivOf(|w.tables[slot]|, 0, w.bs);
  }

  /** Prefill: the prompt is in the slot's blocks and its greedy successor is appended. */
  function Prefilled(q: Sequence, tok: Token): Sequence {
    q.(length := |q.prompt|, outputs := q.outputs + [tok])
  }

  lemma FillRow(w: World, q: Sequence, store: Store, tok: Token)
    requires RowOk(w, Admitted, q) && tok == Next(w.net, q.prompt)
    requires Holds(w.net, store, w.tables[q.slot.value], w.bs, q.prompt)
    ensures RowOk(w.(store := store), Filled, Prefilled(q, tok))
  {
    if q.exact {
      FirstTokenOnTrack(w.net, w.eos, q, tok);
    }
  }

  /** The prompt's whole blocks become shared; the row goes on with what lies past them. */
  lemma StoreRow(w: World, q: Sequence, trie: Node)
    requires RowOk(w, Filled, q) && NoDup(w.tables[q.slot.value])
    requires |q.prompt| / w.bs <= |w.tables[q.slot.value]|
    requires forall b: nat :: b !in w.tables[q.slot.value][..|q.prompt| / w.bs] ==> Refs(trie, b) <= Refs(w.trie, b)
    ensures RowOk(w.(trie := trie), Live, q)
  {
    var table, n := w.tables[q.slot.value], |q.prompt| / w.bs;
    DivMono(q.matched, |q.prompt|, w.bs);
    forall k | n <= k < |table| ensures Owners(w.tables, trie, table[k]) == 1 {
      assert table[k] !in table[..n];
      assert Owners(w.tables, w.trie, table[k]) == 1;
      TableRefsAtLeast(w.tables, q.slot.value, table[k]);
      OccursIn(table, table[k]);
    }
    assert q.Fed()[..q.length] == q.prompt;
  }

  /** Preemption: the outputs are folded into the prompt and everything is recomputed. The
      sequence stays on its run if nothing was folded before and the window leaves room. */
  function Preempt(q: Sequence): Sequence {
    q.(prompt := q.prompt + q.outputs, length := 0, slot := None, matched := 0, carry := None, status := Waiting,
       fold := |q.outputs|, stale := false, spoiled := false, preempts := q.preempts + 1,
       exact := q.exact && q.fold == 0
                && (q.maxLen.Some? ==> |q.prompt| + |q.outputs| + q.maxTokens <= q.maxLen.value))
  }

  lemma PreemptRow(net: Net, eos: Option<Token>, q: Sequence)
    requires Pure(net, eos, Live, q) && !q.IsFinished(eos)
    ensures WaitOk(net, eos, Preempt(q))
  {
    var r := Preempt(q);
    if r.exact {
      assert q.outputs[..0] == [] && q.orig + [] == q.orig;
      assert r.outputs[..r.fold] == r.outputs;
      FoldedStops(q, eos);
      FoldedStops(r, eos);
    }
  }

  lemma FinishRow(net: Net, eos: Option<Token>, q: Sequence)
    requires Pure(net, eos, Live, q) && q.IsFinished(eos)
    ensures FinOk(net, eos, q.(status := Finished))
  {
    if q.exact { FoldedStops(q, eos); }
  }

  // ---- decode steps --------------------------------------------------------------

  /** One plain decode step of a row. A carry it still holds is not cleared, so from now on
      it names a position that has passed. */
  function DecodeStep(q: Sequence, tok: Token): Sequence {
    q.(length := q.length + 1, outputs := q.outputs + [tok], stale := q.carry.Some?)
  }

  lemma DecodeRow(w: World, q: Sequence, store: Store, tok: Token)
    requires RowOk(w, Live, q) && !q.IsFinished(w.eos)
    requires |store| == w.net.numLayers
    requires !q.spoiled ==> Holds(w.net, store, w.tables[q.slot.value], w.bs, q.Fed()) && tok == Next(w.net, q.Fed())
    ensures RowOk(w.(store := store), Live, DecodeStep(q, tok))
  {
    var r := DecodeStep(q, tok);
    assert r.outputs[r.fold..] == q.outputs[q.fold..] + [tok];
    assert r.Fed() == q.Fed() + [tok];
    if q.exact { GreedyStepOnTrack(w.net, w.eos, q, tok); }
    if !q.spoiled {
      assert r.Fed()[..r.length] == q.Fed();
    } else {
      HoldsNothing(w.net, store, w.tables[q.slot.value], w.bs);
    }
  }

  /** The bootstrap forward: the last token's K/V is written and its successor carried. */
  lemma BootstrapRow(w: World, q: Sequence, store: Store, tok: Token)
    requires RowOk(w, Live, q) && q.carry.None?
    requires |store| == w.net.numLayers
    requires !q.spoiled ==> Holds(w.net, store, w.tables[q.slot.value], w.bs, q.Fed()) && tok == Next(w.net, q.Fed())
    ensures RowOk(w.(store := store), Live, q.(carry := Some(tok)))
  {
    var r := q.(carry := Some(tok));
    assert r.Fed() == q.Fed();
    if q.spoiled { HoldsNothing(w.net, store, w.tables[q.slot.value], w.bs); }
  }

  /** A step without drafts commits the carried token as a plain step would. A stale carry is
      not the next token and skips a K/V position, so the row is no longer bound to its run and
      its slot has a hole. */
  function NoDraftStep(q: Sequence): Sequence
    requires q.carry.Some?
  {
    q.(length := q.length + 1, outputs := q.outputs + [q.carry.value], carry := None, stale := false,
       spoiled := q.spoiled || q.stale, misfed := q.misfed || q.stale, exact := q.exact && !q.stale)
  }

  lemma NoDraftRow(w: World, q: Sequence)
    requires RowOk(w, Live, q) && !q.IsFinished(w.eos) && q.carry.Some?
    ensures RowOk(w, Live, NoDraftStep(q))
  {
    var r := NoDraftStep(q);
    assert r.outputs[r.fold..] == q.outputs[q.fold..] + [q.carry.value];
    assert r.Fed() == q.Fed() + [q.carry.value];
    if r.exact { GreedyStepOnTrack(w.net, w.eos, q, q.carry.value); }
    if !r.spoiled {
      assert r.Fed()[..r.length] == q.Fed();
    } else {
      HoldsNothing(w.net, w.store, w.tables[q.slot.value], w.bs);
    }
  }

  /** Being on track depends on the request, the folded part and the outputs only. */
  lemma SameTrack(net: Net, eos: Option<Token>, q: Sequence, r: Sequence)
    requires OnTrack(net, eos, q) && r.Req() == q.Req()
    requires r.prompt == q.prompt && r.fold == q.fold && r.outputs == q.outputs
    ensures OnTrack(net, eos, r)
  {
  }

  /** The tokens fed grow by what is emitted. */
  lemma FedGrows(q: Sequence, r: Sequence, more: seq<Token>)
    requires q.fold <= |q.outputs| && r.prompt == q.prompt && r.fold == q.fold && r.outputs == q.outputs + more
    ensures r.Fed() == q.Fed() + more
  {
    assert r.outputs[r.fold..] == q.outputs[q.fold..] + more;
  }

  lemma VerifyPure(net: Net, eos: Option<Token>, q: Sequence, ver: seq<Token>, truth: seq<Token>, actual: nat,
                   r: Sequence, n: nat, m: nat)
    requires Pure(net, eos, Live, q) && !q.IsFinished(eos) && Accepted(q, eos, ver, truth, actual, r, n, m)
    requires q.carry == Some(ver[0])
    requires !r.spoiled ==> forall t :: 0 <= t < |ver| ==> truth[t] == Next(net, q.Fed() + ver[..t + 1])
    ensures Pure(net, eos, Live, r)
    ensures r.Fed() == q.Fed() + ver[..m]
    ensures !r.spoiled ==> GreedyTail(net, r.Fed(), |q.Fed()|)
  {
    hide FinishReason, Next, AcceptCount, GreedyTail, OnTrack, EmitCount, Excused;
    AcceptedExcused(q, eos, ver, truth, actual, r, n, m);
    AcceptedBounds(q, eos, ver, truth, actual, r, n, m);
    ExcusedUnspoiled(r);
    FedGrows(q, r, ver[..m]);
    if !r.spoiled {
      AcceptedIsGreedy(net, q.Fed(), ver, truth, actual, n);
      assert ver[..n + 1][..m] == ver[..m];
      EmittedTail(net, q.Fed(), ver[..n + 1], m);
      if r.carry.Some? { assert m == n + 1 && r.carry.value == truth[n]; }
    }
    if r.exact {
      assert ver[..n + 1][..m] == ver[..m];
      SpecStepOnTrack(net, eos, q, ver[..n + 1], m);
      SameTrack(net, eos, q.(outputs := q.outputs + ver[..m]), r);
    }
  }

  lemma ExcusedUnspoiled(q: Sequence)
    requires Excused(q)
    ensures q.exact ==> !q.spoiled
  {
  }

  lemma VerifyHolds(net: Net, store: Store, table: seq<nat>, bs: nat, fed: seq<Token>, ver: seq<Token>, m: nat)
    requires Holds(net, store, table, bs, fed + ver) && m <= |ver|
    ensures Holds(net, store, table, bs, fed + ver[..m])
    ensures m > 0 ==> Holds(net, store, table, bs, (fed + ver[..m])[..|fed| + m - 1])
  {
    assert (fed + ver)[..|fed| + m] == fed + ver[..m];
    HoldsPrefix(net, store, table, bs, fed + ver, table, |fed| + m);
    if m > 0 {
      HoldsPrefix(net, store, table, bs, fed + ver[..m], table, |fed| + m - 1);
    }
  }

  /** A verified and accepted row, whatever was drafted. */
  lemma VerifyRow(w: World, q: Sequence, store: Store, ver: seq<Token>, truth: seq<Token>, actual: nat,
                  r: Sequence, n: nat, m: nat)
    requires RowOk(w, Live, q) && !q.IsFinished(w.eos) && Accepted(q, w.eos, ver, truth, actual, r, n, m)
    requires q.carry == Some(ver[0])
    requires |store| == w.net.numLayers
    requires !q.spoiled && !q.stale ==> Holds(w.net, store, w.tables[q.slot.value], w.bs, q.Fed() + ver)
    requires !q.spoiled && !q.stale ==>
      forall t :: 0 <= t < |ver| ==> truth[t] == Next(w.net, q.Fed() + ver[..t + 1])
    ensures RowOk(w.(store := store), Live, r)
    ensures !r.spoiled ==> GreedyTail(w.net, r.Fed(), |q.Fed()|)
  {
    hide FinishReason, Next, AcceptCount, EmitCount, OnTrack, Exclusive, Holds, GreedyTail;
    AcceptedBounds(q, w.eos, ver, truth, actual, r, n, m);
    VerifyPure(w.net, w.eos, q, ver, truth, actual, r, n, m);
    var table := w.tables[q.slot.value];
    if !r.spoiled {
      VerifyHolds(w.net, store, table, w.bs, q.Fed(), ver, m);
    } else {
      HoldsNothing(w.net, store, table, w.bs);
    }
  }

  // ---- whole-world steps ---------------------------------------------------------

  /** A lookup only stamps entries. */
  lemma TouchedWorld(w: World, trie: Node, tokens: seq<Token>, stamp: nat)
    requires WorldOk(w) && Touched(w.trie, trie, tokens, stamp) && SameRefs(w.trie, trie) && Distinct(trie)
    ensures WorldOk(w.(trie := trie))
    ensures forall phase, q :: RowOk(w, phase, q) ==> RowOk(w.(trie := trie), phase, q)
  {
    forall p | At(trie, p).Some? ensures Holds(w.net, w.store, At(trie, p).value.blocks, w.bs, p) {
      assert At(w.trie, p).Some?;
    }
    forall phase, q | RowOk(w, phase, q) ensures RowOk(w.(trie := trie), phase, q) {
      RowRetied(w, w.tables, trie, phase, q);
    }
  }

  /** Pointing an empty slot at trie-held blocks takes nothing from any other row. */
  lemma SharedWorld(w: World, slot: nat, blocks: seq<nat>)
    requires WorldOk(w) && slot < |w.tables| && w.tables[slot] == [] && NoDup(blocks)
    requires forall b :: b in blocks ==> Refs(w.trie, b) > 0
    ensures WorldOk(w.(tables := w.tables[slot := blocks]))
    ensures forall phase, q :: RowOk(w, phase, q) && q.slot.value != slot ==>
      RowOk(w.(tables := w.tables[slot := blocks]), phase, q)
  {
    forall phase, q | RowOk(w, phase, q) && q.slot.value != slot
      ensures RowOk(w.(tables := w.tables[slot := blocks]), phase, q)
    {
      var table := w.tables[q.slot.value];
      forall k | Front(phase, q, w.bs) <= k < |table|
        ensures Owners(w.tables[slot := blocks], w.trie, table[k]) <= Owners(w.tables, w.trie, table[k])
      {
        assert Owners(w.tables, w.trie, table[k]) == 1;
        TableRefsAtLeast(w.tables, q.slot.value, table[k]);
        OccursIn(table, table[k]);
        TableRefsUpdate(w.tables, slot, blocks, table[k]);
        OccursIn(blocks, table[k]);
      }
      RowRetied(w, w.tables[slot := blocks], w.trie, phase, q);
    }
  }

  /** Freeing a slot takes references away only. */
  lemma FreedWorld(w: World, slot: nat)
    requires WorldOk(w) && slot < |w.tables|
    ensures WorldOk(w.(tables := w.tables[slot := []]))
    ensures forall phase, q :: RowOk(w, phase, q) && q.slot.value != slot ==>
      RowOk(w.(tables := w.tables[slot := []]), phase, q)
  {
    forall phase, q | RowOk(w, phase, q) && q.slot.value != slot
      ensures RowOk(w.(tables := w.tables[slot := []]), phase, q)
    {
      forall b: nat ensures Owners(w.tables[slot := []], w.trie, b) <= Owners(w.tables, w.trie, b) {
        TableRefsUpdate(w.tables, slot, [], b);
      }
      RowRetied(w, w.tables[slot := []], w.trie, phase, q);
    }
  }

  lemma GrownWorld(w: World, tables: seq<seq<nat>>, slots: seq<nat>)
    requires WorldOk(w) && OnlyGrown(w.tables, tables, w.trie, slots)
    requires forall s :: 0 <= s < |tables| ==> NoDup(tables[s])
    ensures WorldOk(w.(tables := tables))
    ensures forall phase, q :: RowOk(w, phase, q) ==> RowOk(w.(tables := tables), phase, q)
  {
    forall phase, q | RowOk(w, phase, q) ensures RowOk(w.(tables := tables), phase, q) {
      RowGrown(w, tables, slots, phase, q);
    }
  }

  /** Writes to the private blocks of `slots` leave the trie and every other row alone. */
  lemma WrittenWorld(w: World, store: Store, slots: seq<nat>, blocks: set<nat>)
    requires WorldOk(w) && WritesWithin(w.net, w.store, store, w.bs, blocks)
    requires Private(w.tables, w.trie, blocks, slots)
    ensures WorldOk(w.(store := store))
    ensures forall phase, q :: RowOk(w, phase, q) && q.slot.value !in slots ==> RowOk(w.(store := store), phase, q)
  {
    TrieFrame(w.net, w.store, store, w.bs, blocks, w.tables, w.trie, slots);
    forall phase, q | RowOk(w, phase, q) && q.slot.value !in slots ensures RowOk(w.(store := store), phase, q) {
      RowWritten(w, store, slots, blocks, phase, q);
    }
  }

  /** Storing a filled prompt shares its whole blocks with the trie: the new entries hold
      their paths' rows, and no other row loses a private block. */
  lemma StoredWorld(w: World, trie: Node, prompt: seq<Token>, slot: nat, lru: nat)
    requires WorldOk(w) && Distinct(trie) && slot < |w.tables|
    requires Holds(w.net, w.store, w.tables[slot], w.bs, prompt) && |prompt| / w.bs <= |w.tables[slot]|
    requires StoredPath(w.trie, trie, prompt, w.tables[slot][..|prompt| / w.bs])
    requires EntriesOk(trie, w.bs, lru)
    ensures WorldOk(w.(trie := trie))
    ensures forall phase, q :: RowOk(w, phase, q) && q.slot.value != slot ==> RowOk(w.(trie := trie), phase, q)
  {
    hide Holds, Pure, StoredPath, Exclusive, Distinct, NoDup;
    var part := w.tables[slot][..|prompt| / w.bs];
    forall p | At(trie, p).Some? ensures Holds(w.net, w.store, At(trie, p).value.blocks, w.bs, p) {
      StoredEntry(w, trie, prompt, slot, part, p);
    }
    forall phase, q | RowOk(w, phase, q) && q.slot.value != slot ensures RowOk(w.(trie := trie), phase, q) {
      StoredRow(w, trie, prompt, slot, part, phase, q);
    }
  }

  lemma StoredEntry(w: World, trie: Node, prompt: seq<Token>, slot: nat, part: seq<nat>, p: seq<Token>)
    requires TrieHolds(w.net, w.store, w.bs, w.trie) && EntriesShaped(trie, w.bs) && w.bs > 0 && slot < |w.tables|
    requires Holds(w.net, w.store, w.tables[slot], w.bs, prompt) && part <= w.tables[slot]
    requires StoredPath(w.trie, trie, prompt, part) && At(trie, p).Some?
    ensures Holds(w.net, w.store, At(trie, p).value.blocks, w.bs, p)
  {
    hide Holds;
    var blocks := At(trie, p).value.blocks;
    if !(At(w.trie, p).Some? && blocks == At(w.trie, p).value.blocks) {
      assert p == prompt[..|p|] && blocks <= part && part <= w.tables[slot];
      HoldsShorter(w.net, w.store, w.tables[slot], w.bs, prompt, blocks, |p|);
    }
  }

  lemma StoredRow(w: World, trie: Node, prompt: seq<Token>, slot: nat, part: seq<nat>, phase: Phase, q: Sequence)
    requires RowOk(w, phase, q) && q.slot.value != slot && slot < |w.tables| && part <= w.tables[slot]
    requires StoredPath(w.trie, trie, prompt, part)
    ensures RowOk(w.(trie := trie), phase, q)
  {
    hide Holds, Pure;
    var table := w.tables[q.slot.value];
    forall k | Front(phase, q, w.bs) <= k < |table|
      ensures Owners(w.tables, trie, table[k]) <= Owners(w.tables, w.trie, table[k])
    {
      NotElsewhere(w.tables, w.trie, q.slot.value, Front(phase, q, w.bs), k, slot);
      assert table[k] !in part;
    }
    RowRetied(w, w.tables, trie, phase, q);
  }

  /** A shorter table that still covers the prefix reads the same. */
  lemma HoldsShorter(net: Net, store: Store, table: seq<nat>, bs: nat, toks: seq<Token>, part: seq<nat>, k: nat)
    requires Holds(net, store, table, bs, toks) && k <= |toks| && part <= table && k <= |part| * bs
    ensures Holds(net, store, part, bs, toks[..k])
  {
    HoldsPrefix(net, store, table, bs, toks, table, k);
    FlatMappingPrefix(part, table, bs, k, k);
    assert FlatSlotMapping(part, bs, k)[..k] == FlatSlotMapping(part, bs, k);
  }

  lemma NotElsewhere(tables: seq<seq<nat>>, trie: Node, s: nat, from: nat, k: nat, r: nat)
    requires s < |tables| && r < |tables| && s != r && Exclusive(tables, trie, s, from) && from <= k < |tables[s]|
    ensures tables[s][k] !in tables[r]
  {
    var b := tables[s][k];
    assert Owners(tables, trie, b) == 1;
    TableRefsTwo(tables, s, r, b);
    OccursIn(tables[s], b);
    OccursIn(tables[r], b);
  }
}
