/** When the block pool cannot run dry: a bound on what live sequences and the prefix trie hold
    together, from what every request and every slot table may grow to. */
module Capacity {
  import opened Options
  import opened Lists
  import opened Pool
  import opened Network
  import opened Greedy
  import opened Sequences
  import opened PrefixTrie
  import opened Blocks
  import opened PagedCache
  import opened EngineRows
  import opened EngineLists

  /** The request ends, by its token budget or by its window, within `span` positions. */
  predicate FitsSpan(req: Request, span: nat) {
    && |req.prompt| <= span
    && (|req.prompt| + req.maxTokens <= span || (req.maxLen.Some? && req.maxLen.value <= span))
  }

  ghost predicate Steady(q: Sequence, span: nat) {
    q.preempts == 0 && FitsSpan(q.Req(), span)
  }

  /** The state of a provisioned engine stays within its bounds. */
  ghost predicate Snug(bounds: Option<Bounds>, live: nat, tables: seq<seq<nat>>, pinned: nat, seqs: Table) {
    bounds.Some? ==>
      && live <= bounds.value.seats && pinned <= bounds.value.budget
      && WithinCap(tables, bounds.value.cap)
      && forall id :: id in seqs ==> Steady(seqs[id], bounds.value.span)
  }

  /** An unfinished sequence that was never preempted has fed fewer than `span` tokens. */
  lemma SteadyFed(q: Sequence, span: nat, eos: Option<Token>)
    requires Steady(q, span) && Excused(q) && !q.IsFinished(eos)
    ensures q.fold == 0 && |q.prompt| == |q.orig| <= span && |q.prompt| + |q.outputs| < span
  {
  }

  // ---- counting blocks -----------------------------------------------------------

  /** The tables of the live sequences. */
  function LiveTables(st: State): (r: seq<seq<nat>>)
    requires forall id :: st.Live(id) ==> id in st.seqs && SeatOk(st.seqs[id], st.free, |st.w.tables|)
    ensures |r| == |st.running| + |st.batch|
  {
    var ids := st.running + st.batch;
    assert forall i :: 0 <= i < |ids| ==> st.Live(ids[i]) && SeatOk(st.seqs[ids[i]], st.free, |st.w.tables|);
    seq(|ids|, i requires 0 <= i < |ids| => st.w.tables[st.seqs[ids[i]].slot.value])
  }

  lemma LiveTableAt(st: State, s: nat) returns (i: nat)
    requires Listed(st) && Seated(st) && s < |st.w.tables| && s !in st.free
    ensures i < |LiveTables(st)| && LiveTables(st)[i] == st.w.tables[s]
  {
    assert Taken(st, s);
    var a :| st.Live(a) && st.seqs[a].slot == Some(s);
    var ids := st.running + st.batch;
    assert a in ids;
    i :| 0 <= i < |ids| && ids[i] == a;
  }

  /** Nothing is free: every block is in a live table or pinned. */
  lemma DryPool(st: State, rc: map<nat, nat>, numBlocks: nat, pins: map<nat, nat>)
    requires Listed(st) && Seated(st)
    requires Balanced(rc, [], numBlocks, st.w.tables, st.w.trie)
    requires forall b: nat :: Counted(b, pins, Refs(st.w.trie, b))
    ensures numBlocks <= |Union(LiveTables(st))| + |pins|
  {
    hide Balanced, Counted;
    forall s | 0 <= s < |st.w.tables| && st.w.tables[s] != [] ensures st.w.tables[s] in LiveTables(st) {
      var i := LiveTableAt(st, s);
    }
    Covered(rc, numBlocks, st.w.tables, st.w.trie, pins, LiveTables(st));
  }

  lemma LiveWithin(st: State, cap: nat)
    requires Listed(st) && Seated(st) && WithinCap(st.w.tables, cap)
    ensures WithinCap(LiveTables(st), cap)
  {
    hide Seated;
    var ids := st.running + st.batch;
    assert forall i :: 0 <= i < |ids| ==> st.Live(ids[i]);
    SeatedLive(st);
  }

  lemma SeatedLive(st: State)
    requires Listed(st) && Seated(st)
    ensures forall id :: st.Live(id) ==> id in st.seqs && SeatOk(st.seqs[id], st.free, |st.w.tables|)
  {
  }

  /** A dry pool means full seats, no short table, and more blocks in use than provisioned. */
  lemma DryBound(st: State, rc: map<nat, nat>, numBlocks: nat, pins: map<nat, nat>, cap: nat, short: nat)
    requires Listed(st) && Seated(st) && WithinCap(st.w.tables, cap)
    requires Balanced(rc, [], numBlocks, st.w.tables, st.w.trie)
    requires forall b: nat :: Counted(b, pins, Refs(st.w.trie, b))
    ensures numBlocks <= (|st.running| + |st.batch|) * cap + |pins|
    ensures short < |st.w.tables| && short !in st.free && |st.w.tables[short]| < cap ==>
      numBlocks < (|st.running| + |st.batch|) * cap + |pins|
  {
    hide Balanced, Counted, Seated, Listed, Union, WithinCap;
    SeatedLive(st);
    DryPool(st, rc, numBlocks, pins);
    LiveWithin(st, cap);
    var tables := LiveTables(st);
    var i := |tables|;
    if short < |st.w.tables| && short !in st.free { i := LiveTableAt(st, short); }
    UnionBound(tables, cap, i);
  }

  /** As many live sequences as slots leave no slot free. */
  lemma SeatsTaken(st: State)
    requires Listed(st) && Seated(st)
    ensures st.free != [] ==> |st.running| + |st.batch| < |st.w.tables|
  {
    hide Seated, Listed, SeatOk;
    if st.free != [] {
      var slots := SeatedApart(st);
      NoDupCard(slots);
      SmallKeys(Elements(slots) + {st.free[0]}, |st.w.tables|);
    }
  }

  /** The slots of the live sequences: all different and none free. */
  lemma SeatedApart(st: State) returns (slots: seq<nat>)
    requires Listed(st) && Seated(st) && st.free != []
    ensures |slots| == |st.running| + |st.batch| && NoDup(slots) && st.free[0] !in Elements(slots)
    ensures forall s :: s in Elements(slots) + {st.free[0]} ==> s < |st.w.tables|
  {
    var ids := st.running + st.batch;
    SeatedLive(st);
    assert forall i :: 0 <= i < |ids| ==> st.Live(ids[i]) && SeatOk(st.seqs[ids[i]], st.free, |st.w.tables|);
    slots := seq(|ids|, i requires 0 <= i < |ids| => st.seqs[ids[i]].slot.value);
    forall i, j | 0 <= i < j < |slots| ensures slots[i] != slots[j] {
      assert ids[i] != ids[j];
    }
    assert st.free[0] in st.free;
  }

  // ---- a provisioned engine ------------------------------------------------------

  /** In a provisioned engine the pool is dry only when every seat is taken, no slot is free and
      no live table has room to grow. */
  lemma NeverDry(st: State, rc: map<nat, nat>, numBlocks: nat, pins: map<nat, nat>, b: Bounds)
    requires Listed(st) && Seated(st)
    requires Balanced(rc, [], numBlocks, st.w.tables, st.w.trie)
    requires forall b: nat :: Counted(b, pins, Refs(st.w.trie, b))
    requires Provisioned(b, numBlocks, |st.w.tables|)
    requires |st.running| + |st.batch| <= b.seats && |pins| <= b.budget && WithinCap(st.w.tables, b.cap)
    ensures |st.running| + |st.batch| == b.seats && st.free == []
    ensures forall s :: 0 <= s < |st.w.tables| && s !in st.free ==> |st.w.tables[s]| == b.cap
  {
    hide Balanced, Counted, Seated, Listed;
    DryBound(st, rc, numBlocks, pins, b.cap, |st.w.tables|);
    SeatsBound(|st.running| + |st.batch|, b.seats, b.cap);
    SeatsTaken(st);
    forall s | 0 <= s < |st.w.tables| && s !in st.free ensures |st.w.tables[s]| == b.cap {
      DryBound(st, rc, numBlocks, pins, b.cap, s);
    }
  }

  // ---- how the bounds are kept ---------------------------------------------------

  /** The blocks of a shared prefix fit the bound of a table. */
  lemma SharedFits(q: Sequence, n: nat, matched: nat, span: nat, more: nat, bs: nat)
    requires Steady(q, span) && Excused(q) && bs > 0 && n * bs == matched <= |q.prompt|
    ensures n <= Needed(span + more, bs)
  {
    if n > Needed(span + more, bs) { MulMono(Needed(span + more, bs) + 1, n, bs); }
  }

  lemma SnugAdmitted(b: Option<Bounds>, live: nat, tables: seq<seq<nat>>, pinned: nat, seqs: Table, id: nat,
                     slot: nat, matched: nat, blocks: seq<nat>)
    requires Snug(b, live, tables, pinned, seqs) && id in seqs && slot < |tables|
    requires b.Some? ==> live < b.value.seats && |blocks| <= b.value.cap
    ensures Snug(b, live + 1, tables[slot := blocks], pinned, seqs[id := Admit(seqs[id], slot, matched)])
  {
  }

  /** A sequence moved on without being preempted. */
  lemma SnugRow(b: Option<Bounds>, live: nat, tables: seq<seq<nat>>, pinned: nat, seqs: Table, id: nat, q: Sequence)
    requires Snug(b, live, tables, pinned, seqs) && id in seqs
    requires q.Req() == seqs[id].Req() && q.preempts == seqs[id].preempts
    ensures Snug(b, live, tables, pinned, seqs[id := q])
  {
  }

  lemma SnugGrown(b: Option<Bounds>, live: nat, was: seq<seq<nat>>, now: seq<seq<nat>>, pinned: nat, seqs: Table,
                  slots: seq<nat>, lengths: seq<nat>, bs: nat)
    requires Snug(b, live, was, pinned, seqs) && bs > 0 && |slots| == |lengths|
    requires GrownToNeed(was, now, slots, lengths, bs)
    requires forall s :: 0 <= s < |was| && s < |now| ==> was[s] <= now[s]
    requires b.Some? ==> forall i :: 0 <= i < |lengths| ==> Needed(lengths[i], bs) <= b.value.cap
    ensures Snug(b, live, now, pinned, seqs)
  {
    if b.Some? {
      forall s | 0 <= s < |now| ensures |now[s]| <= b.value.cap {
        if |now[s]| > |was[s]| { assert NeedsAtLeast(slots, lengths, bs, s, |now[s]|); }
      }
    }
  }

  /** A sequence gave up its slot. */
  lemma SnugVacated(b: Option<Bounds>, live: nat, tables: seq<seq<nat>>, pinned: nat, seqs: Table, slot: nat)
    requires Snug(b, live, tables, pinned, seqs) && live > 0 && slot < |tables|
    ensures Snug(b, live - 1, tables[slot := []], pinned, seqs)
  {
  }

  lemma SnugDropped(b: Option<Bounds>, live: nat, tables: seq<seq<nat>>, pinned: nat, seqs: Table, id: nat)
    requires Snug(b, live, tables, pinned, seqs)
    ensures Snug(b, live, tables, pinned, seqs - {id})
  {
  }
}
