/** The packed prefill of a batch keeps the engine's invariant: prompts meet in a cell only inside
    prefixes they share, and what the pass writes there is what the cell holds. */
module EnginePack {
  import opened Options
  import opened Lists
  import opened Network
  import opened Sequences
  import opened PagedForward
  import opened EngineState
  import opened EngineRows
  import opened EngineLists
  import opened Prefill
  import opened Packed

  /** The member's table covers its prompt. */
  predicate CoversOne(tables: seq<seq<nat>>, bs: nat, seqs: Table, id: nat) {
    && id in seqs && seqs[id].slot.Some? && seqs[id].slot.value < |tables|
    && |seqs[id].prompt| <= |tables[seqs[id].slot.value]| * bs
  }

  predicate Covers(tables: seq<seq<nat>>, bs: nat, seqs: Table, batch: seq<nat>) {
    bs > 0 && forall i :: 0 <= i < |batch| ==> CoversOne(tables, bs, seqs, batch[i])
  }

  /** The cells of every prompt of the batch. */
  function PlacesOf(tables: seq<seq<nat>>, bs: nat, seqs: Table, batch: seq<nat>): (r: seq<seq<nat>>)
    requires Covers(tables, bs, seqs, batch)
    ensures |r| == |batch| && forall i :: 0 <= i < |batch| ==> |r[i]| == |seqs[batch[i]].prompt|
  {
    seq(|batch|, i requires 0 <= i < |batch| =>
      FlatSlotMapping(tables[seqs[batch[i]].slot.value], bs, |seqs[batch[i]].prompt|))
  }

  function PromptTokens(seqs: Table, batch: seq<nat>): (r: seq<seq<Token>>)
    requires forall i :: 0 <= i < |batch| ==> batch[i] in seqs
    ensures |r| == |batch| && forall i :: 0 <= i < |batch| ==> r[i] == seqs[batch[i]].prompt
  {
    seq(|batch|, i requires 0 <= i < |batch| => seqs[batch[i]].prompt)
  }

  /** How much of every prompt the prefix cache holds. */
  function HeldOf(seqs: Table, batch: seq<nat>): (r: seq<nat>)
    requires forall i :: 0 <= i < |batch| ==> batch[i] in seqs
    ensures |r| == |batch| && forall i :: 0 <= i < |batch| ==> r[i] == seqs[batch[i]].matched
  {
    seq(|batch|, i requires 0 <= i < |batch| => seqs[batch[i]].matched)
  }

  /** A batch on its way to a packed prefill. */
  ghost predicate Packing(st: State) {
    StateOk(st) && st.k == 0 && st.todo == Admitted && Covers(st.w.tables, st.w.bs, st.seqs, st.batch)
  }

  lemma AdmittedRow(st: State, i: nat)
    requires Packing(st) && i < |st.batch|
    ensures st.batch[i] in st.seqs && RowOk(st.w, Admitted, st.seqs[st.batch[i]])
    ensures NoDup(st.w.tables[st.seqs[st.batch[i]].slot.value])
    ensures forall j :: 0 <= j < |st.batch| && j != i ==> st.seqs[st.batch[j]].slot != st.seqs[st.batch[i]].slot
  {
    hide RowOk, Promised, Seated;
    BatchSeat(st, i);
  }

  /** Past its held prefix a prompt's cells are nobody else's. */
  lemma CellsMeet(st: State, b: nat, c: nat, p: nat, q: nat)
    requires Packing(st) && b < |st.batch| && c < |st.batch|
    requires
      var places := PlacesOf(st.w.tables, st.w.bs, st.seqs, st.batch);
      p < |places[b]| && q < |places[c]| && places[b][p] == places[c][q]
    ensures (b == c && p == q) || p < st.seqs[st.batch[b]].matched
  {
    hide StateOk, Holds, Pure;
    AdmittedRow(st, b);
    AdmittedRow(st, c);
    var r, s := st.seqs[st.batch[b]], st.seqs[st.batch[c]];
    if b == c && p != q {
      FlatDistinct(st.w.tables[r.slot.value], st.w.bs, p, q);
    }
    if b != c && p >= r.matched {
      SlotsApart(st.w.tables, st.w.trie, st.w.bs, r.slot.value, r.matched, p, s.slot.value, q);
    }
  }

  lemma PackShared(st: State)
    requires Packing(st)
    ensures SharedHeld(PlacesOf(st.w.tables, st.w.bs, st.seqs, st.batch), HeldOf(st.seqs, st.batch))
  {
    hide StateOk, FlatSlotMapping;
    var places, held := PlacesOf(st.w.tables, st.w.bs, st.seqs, st.batch), HeldOf(st.seqs, st.batch);
    forall b, c, p, q | 0 <= b < |places| && 0 <= c < |places| && 0 <= p < |places[b]| && 0 <= q < |places[c]|
      ensures places[b][p] == places[c][q] ==> (b == c && p == q) || (p < held[b] && q < held[c])
    {
      if places[b][p] == places[c][q] {
        CellsMeet(st, b, c, p, q);
        CellsMeet(st, c, b, q, p);
      }
    }
  }

  /** Before the pass every prompt's held prefix reads back. */
  lemma PackHeld(st: State)
    requires Packing(st)
    ensures StoreHolds(st.w.net, st.w.store, PlacesOf(st.w.tables, st.w.bs, st.seqs, st.batch),
                       PromptTokens(st.seqs, st.batch), HeldOf(st.seqs, st.batch))
  {
    hide Promised, Seated, TrieHolds, ReadsUpTo, RowOk, FlatSlotMapping;
    var w, places := st.w, PlacesOf(st.w.tables, st.w.bs, st.seqs, st.batch);
    forall b | 0 <= b < |st.batch|
      ensures ReadsUpTo(w.net, w.store, places[b], st.seqs[st.batch[b]].prompt, st.seqs[st.batch[b]].matched)
    {
      AdmittedRow(st, b);
      MemberReads(w, st.seqs[st.batch[b]]);
    }
    ReadsStore(w.net, w.store, places, PromptTokens(st.seqs, st.batch), HeldOf(st.seqs, st.batch));
  }

  lemma ReadsStore(net: Net, store: Store, places: seq<seq<nat>>, prompts: seq<seq<Token>>, upTo: seq<nat>)
    requires |store| == net.numLayers && |places| == |prompts| == |upTo|
    requires forall b :: 0 <= b < |places| ==> |places[b]| == |prompts[b]|
    requires forall b :: 0 <= b < |places| ==> ReadsUpTo(net, store, places[b], prompts[b], upTo[b])
    ensures StoreHolds(net, store, places, prompts, upTo)
  {
    forall l | 0 <= l < net.numLayers ensures LayerHolds(net, l, store[l], places, prompts, upTo) {
      forall b, p | 0 <= b < |places| && 0 <= p < upTo[b] && p < |prompts[b]|
        ensures PromptRow(net, prompts[b], l, p, Load(net, store[l], places[b][p]))
      {
        assert ReadsUpTo(net, store, places[b], prompts[b], upTo[b]);
      }
    }
  }

  lemma MemberReads(w: World, q: Sequence)
    requires RowOk(w, Admitted, q) && |q.prompt| <= |w.tables[q.slot.value]| * w.bs
    ensures |w.store| == w.net.numLayers
    ensures ReadsUpTo(w.net, w.store, FlatSlotMapping(w.tables[q.slot.value], w.bs, |q.prompt|), q.prompt, q.matched)
  {
    hide Exclusive;
    var table := w.tables[q.slot.value];
    FlatMappingPrefix(table, table, w.bs, |q.prompt|, q.matched);
    CacheAsReads(w.net, w.store, FlatSlotMapping(table, w.bs, |q.prompt|), q.prompt, q.matched);
  }

  lemma StoreReads(net: Net, store: Store, places: seq<seq<nat>>, prompts: seq<seq<Token>>, upTo: seq<nat>, b: nat)
    requires StoreHolds(net, store, places, prompts, upTo) && b < |places|
    ensures ReadsUpTo(net, store, places[b], prompts[b], upTo[b])
  {
    forall l, p | 0 <= l < |store| && 0 <= p < upTo[b] && p < |prompts[b]|
      ensures PromptRow(net, prompts[b], l, p, Load(net, store[l], places[b][p]))
    {
      assert LayerHolds(net, l, store[l], places, prompts, upTo);
    }
  }

  /** What the packed pass promises the engine. */
  ghost predicate PackedFor(st: State, store: Store)
    requires Packing(st)
  {
    var places := PlacesOf(st.w.tables, st.w.bs, st.seqs, st.batch);
    && StoreHolds(st.w.net, store, places, PromptTokens(st.seqs, st.batch), Lengths(PromptTokens(st.seqs, st.batch)))
    && |st.w.store| == st.w.net.numLayers
    && forall l, f: nat :: 0 <= l < st.w.net.numLayers && Untouched(places, HeldOf(st.seqs, st.batch), f) ==>
         Load(st.w.net, store[l], f) == Load(st.w.net, st.w.store[l], f)
  }

  /** After the pass every member's table reads its whole prompt. */
  lemma MemberHolds(st: State, store: Store, i: nat)
    requires Packing(st) && PackedFor(st, store) && i < |st.batch|
    ensures
      var q := st.seqs[st.batch[i]];
      Holds(st.w.net, store, st.w.tables[q.slot.value], st.w.bs, q.prompt)
  {
    hide StateOk, StoreHolds;
    var q, places := st.seqs[st.batch[i]], PlacesOf(st.w.tables, st.w.bs, st.seqs, st.batch);
    var prompts := PromptTokens(st.seqs, st.batch);
    StoreReads(st.w.net, store, places, prompts, Lengths(prompts), i);
    StoreSize(st.w.net, store, places, prompts, Lengths(prompts));
    ReadsAsCache(st.w.net, store, places[i], q.prompt, |q.prompt|);
    assert places[i][..|q.prompt|] == places[i] && q.prompt[..|q.prompt|] == q.prompt;
  }

  lemma StoreSize(net: Net, store: Store, places: seq<seq<nat>>, prompts: seq<seq<Token>>, upTo: seq<nat>)
    requires StoreHolds(net, store, places, prompts, upTo)
    ensures |store| == net.numLayers && |places| == |prompts| == |upTo|
    ensures forall b :: 0 <= b < |places| ==> |places[b]| == |prompts[b]|
  {
  }

  /** The members' slots and how much of them is committed. */
  function Starting(seqs: Table, batch: seq<nat>): (r: seq<Place>)
    requires forall i :: 0 <= i < |batch| ==> batch[i] in seqs && seqs[batch[i]].slot.Some?
    ensures |r| == |batch|
    ensures forall i :: 0 <= i < |batch| ==> r[i] == Place(seqs[batch[i]].slot.value, seqs[batch[i]].matched)
  {
    seq(|batch|, i requires 0 <= i < |batch| => Place(seqs[batch[i]].slot.value, seqs[batch[i]].matched))
  }

  /** Only blocks past the held prefixes change. */
  lemma PackWrites(st: State, store: Store)
    requires Packing(st) && PackedFor(st, store)
    ensures WritesWithin(st.w.net, st.w.store, store, st.w.bs,
                         WrittenBlocks(st.w.tables, st.w.bs, Starting(st.seqs, st.batch)))
  {
    hide StateOk, StoreHolds;
    var w, starting := st.w, Starting(st.seqs, st.batch);
    var places, held := PlacesOf(w.tables, w.bs, st.seqs, st.batch), HeldOf(st.seqs, st.batch);
    StoreSize(w.net, store, places, PromptTokens(st.seqs, st.batch), Lengths(PromptTokens(st.seqs, st.batch)));
    forall f: nat | f / w.bs !in WrittenBlocks(w.tables, w.bs, starting) ensures Untouched(places, held, f) {
      forall b, p | 0 <= b < |places| && held[b] <= p < |places[b]| ensures places[b][p] != f {
        TargetBlock(w.tables, w.bs, starting, b, p);
      }
    }
  }

  /** The packed pass as a step of the engine's state: every member is ready for its first token. */
  lemma PackedState(st: State, store: Store)
    requires Packing(st) && PackedFor(st, store)
    ensures StateOk(st.(w := st.w.(store := store)))
    ensures MembersHold(st.w.net, store, st.w.tables, st.w.bs, st.seqs, st.batch)
  {
    hide RowOk, WorldOk, Promised, Seated, PackedFor, Holds, WritesWithin, WrittenBlocks, TrieHolds;
    var w, starting := st.w, Starting(st.seqs, st.batch);
    var now, slots := w.(store := store), seq(|starting|, i requires 0 <= i < |starting| => starting[i].slot);
    PackWrites(st, store);
    forall i | 0 <= i < |starting|
      ensures starting[i].slot < |w.tables| && starting[i].slot in slots
      ensures Exclusive(w.tables, w.trie, starting[i].slot, starting[i].base / w.bs)
    {
      AdmittedRow(st, i);
      AdmittedFront(w, st.seqs[st.batch[i]]);
      assert slots[i] == starting[i].slot;
    }
    WrittenPrivate(w.tables, w.trie, w.bs, starting, slots);
    WrittenWorld(w, store, slots, WrittenBlocks(w.tables, w.bs, starting));
    forall id | id in st.running ensures RowOk(now, Live, st.seqs[id]) {
      RunningSeat(st, id);
      RunsElsewhere(st, id, slots);
    }
    forall i | 0 <= i < |st.batch|
      ensures RowOk(now, Admitted, st.seqs[st.batch[i]])
      ensures Holds(w.net, store, w.tables[st.seqs[st.batch[i]].slot.value], w.bs, st.seqs[st.batch[i]].prompt)
    {
      AdmittedRow(st, i);
      MemberHolds(st, store, i);
      StillAdmitted(w, store, st.seqs[st.batch[i]]);
    }
    FreeEmpty(st);
    NewWorld(st, now);
  }

  lemma FreeEmpty(st: State)
    requires StateOk(st)
    ensures forall s :: s in st.free ==> s < |st.w.tables| && st.w.tables[s] == []
  {
    hide WorldOk, Promised;
  }

  lemma AdmittedFront(w: World, q: Sequence)
    requires RowOk(w, Admitted, q)
    ensures q.slot.Some? && q.slot.value < |w.tables| && Exclusive(w.tables, w.trie, q.slot.value, q.matched / w.bs)
  {
  }

  lemma StillAdmitted(w: World, store: Store, q: Sequence)
    requires RowOk(w, Admitted, q) && Holds(w.net, store, w.tables[q.slot.value], w.bs, q.prompt)
    ensures RowOk(w.(store := store), Admitted, q)
  {
    hide Exclusive;
    HoldsPrefix(w.net, store, w.tables[q.slot.value], w.bs, q.prompt, w.tables[q.slot.value], q.matched);
  }

  lemma RunsElsewhere(st: State, id: nat, slots: seq<nat>)
    requires Packing(st) && id in st.running && id in st.seqs && st.seqs[id].slot.Some? && |slots| == |st.batch|
    requires forall i :: 0 <= i < |slots| ==> Some(slots[i]) == st.seqs[st.batch[i]].slot
    ensures st.seqs[id].slot.value !in slots && RowOk(st.w, Live, st.seqs[id])
  {
    hide RowOk, WorldOk, Seated;
    forall i | 0 <= i < |slots| ensures slots[i] != st.seqs[id].slot.value { BatchSeat(st, i); }
  }

  /** Every member's table reads its whole prompt. */
  ghost predicate MembersHold(net: Net, store: Store, tables: seq<seq<nat>>, bs: nat, seqs: Table, batch: seq<nat>) {
    forall i :: 0 <= i < |batch| ==>
      && CoversOne(tables, bs, seqs, batch[i])
      && Holds(net, store, tables[seqs[batch[i]].slot.value], bs, seqs[batch[i]].prompt)
  }

  lemma MemberHeld(net: Net, store: Store, tables: seq<seq<nat>>, bs: nat, seqs: Table, batch: seq<nat>, i: nat)
    requires MembersHold(net, store, tables, bs, seqs, batch) && i < |batch|
    ensures CoversOne(tables, bs, seqs, batch[i])
    ensures Holds(net, store, tables[seqs[batch[i]].slot.value], bs, seqs[batch[i]].prompt)
  {
    hide Holds;
  }

  /** The last output of a stretch picks the greedy token after its prompt. */
  lemma LastOut(net: Net, outs: seq<Hidden>, cu: seq<nat>, b: nat, prompt: seq<Token>)
    requires prompt != [] && b + 1 < |cu| && PartAt(outs, cu, b, Evaluate(net, prompt).1)
    ensures 0 < cu[b + 1] <= |outs| && net.pick(outs[cu[b + 1] - 1]) == Next(net, prompt)
  {
    hide DecodeRun;
    var part := Evaluate(net, prompt).1;
    assert Last(part) == outs[cu[b]..cu[b + 1]][|part| - 1];
  }

  /** The token of every prompt, picked at the end of its stretch. */
  method LastPicks(net: Net, outs: seq<Hidden>, cu: seq<nat>, prompts: seq<seq<Token>>) returns (firsts: seq<Token>)
    requires |cu| == |prompts| + 1 && forall b :: 0 <= b < |prompts| ==> prompts[b] != []
    requires forall b :: 0 <= b < |prompts| ==> PartAt(outs, cu, b, Evaluate(net, prompts[b]).1)
    ensures |firsts| == |prompts| && forall b :: 0 <= b < |prompts| ==> firsts[b] == Next(net, prompts[b])
  {
    hide PartAt, Next, Evaluate;
    firsts := [];
    for b := 0 to |prompts|
      invariant |firsts| == b && forall c :: 0 <= c < b ==> firsts[c] == Next(net, prompts[c])
    {
      LastOut(net, outs, cu, b, prompts[b]);
      firsts := firsts + [net.pick(outs[cu[b + 1] - 1])];
    }
  }
}
