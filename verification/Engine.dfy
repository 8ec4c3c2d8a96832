/** The engine: request queue, scheduler and runner over one paged cache. `seqs` maps a
    request's id to its sequence, as the engine's `_out` does; the scheduler's lists hold ids. */
module Engine {
  import opened Options
  import opened Lists
  import opened Network
  import opened Greedy
  import opened Sequences
  import opened PagedForward
  import opened PrefixTrie
  import opened Blocks
  import opened PagedCache
  import opened EngineState
  import opened EngineRows
  import opened EngineLists
  import opened Pool
  import opened Capacity
  import opened Runs
  import opened Prefill
  import opened Packed
  import opened EnginePack

  class LLMEngine {
    const net: Net
    const eos: Option<Token>
    const maxNumSeqs: nat
    const maxBatchTokens: nat
    const maxLen: Option<nat>
    const chunkSize: nat
    const specK: nat
    /** The speculation gate: fixed, or free to change at every step. */
    const gate: Option<bool>
    const cache: PagedKVCache

    var seqs: Table
    var waiting: seq<nat>
    var running: seq<nat>
    var nextId: nat
    /** What the engine is provisioned for; None once a request came that does not fit it. */
    ghost var bounds: Option<Bounds>

    /** The engine's state with a batch on its way into `running`. */
    ghost function Snapshot(batch: seq<nat>, k: nat, done: Phase, todo: Phase): State
      reads this, cache
    {
      State(World(net, eos, cache.blockSize, cache.slotBlocks, cache.trie, cache.store), cache.freeSlots,
            waiting, running, seqs, nextId, batch, k, done, todo)
    }

    ghost predicate Mid(batch: seq<nat>, k: nat, done: Phase, todo: Phase)
      reads this, cache
    {
      cache.Valid() && StateOk(Snapshot(batch, k, done, todo)) && CalmAll(gate, seqs) && Sized(|running| + |batch|)
    }

    /** With `live` sequences the engine is within what it is provisioned for. */
    ghost predicate Sized(live: nat)
      reads this, cache
    {
      && Snug(bounds, live, cache.slotBlocks, |cache.prefixBlockRefs|, seqs)
      && (bounds.Some? ==> Ample(bounds.value, cache, maxNumSeqs, specK))
    }

    /** What holds between steps. */
    ghost predicate Inv()
      reads this, cache
    {
      && Mid([], 0, Live, Admitted) && |running| <= maxNumSeqs
      && forall id :: id in running ==> id in seqs && !seqs[id].IsFinished(eos)
    }

    constructor (net: Net, eos: Option<Token>, maxNumSeqs: nat, maxBatchTokens: nat, maxLen: Option<nat>,
                 chunkSize: nat, specK: nat, gate: Option<bool>, cache: PagedKVCache, ghost bounds: Option<Bounds>)
      requires cache.Valid() && cache.trie == EMPTY && |cache.store| == net.numLayers
      requires forall s :: 0 <= s < cache.numSlots ==> s in cache.freeSlots
      requires bounds.Some? ==> Ample(bounds.value, cache, maxNumSeqs, specK)
      ensures Inv() && seqs == map[] && waiting == [] && running == []
      ensures this.cache == cache && this.net == net && this.eos == eos
      ensures this.maxNumSeqs == maxNumSeqs && this.maxLen == maxLen && this.gate == gate
      ensures this.specK == specK && this.bounds == bounds
    {
      this.net, this.eos, this.maxNumSeqs, this.maxBatchTokens := net, eos, maxNumSeqs, maxBatchTokens;
      this.maxLen, this.chunkSize, this.specK, this.gate, this.cache := maxLen, chunkSize, specK, gate, cache;
      this.bounds := bounds;
      seqs, waiting, running, nextId := map[], [], [], 0;
      new;
      EmptyTrie();
      NothingPinned(cache.prefixBlockRefs, cache.trie);
    }

    predicate HasWork()
      reads this
    {
      waiting != [] || running != []
    }

    /** Queue a request; None is the over-length error. */
    method AddRequest(prompt: seq<Token>, maxTokens: nat, ignoreEos: bool) returns (r: Option<nat>)
      requires Inv() && prompt != []
      modifies this`seqs, this`waiting, this`nextId, this`bounds
      ensures Inv()
      ensures r.None? <==> maxLen.Some? && |prompt| > maxLen.value
      ensures r.None? ==> seqs == old(seqs) && waiting == old(waiting) && bounds == old(bounds)
      ensures r.Some? ==> bounds == Admissible(old(bounds), Request(prompt, maxTokens, ignoreEos, maxLen))
      ensures r.Some? ==>
        && r.value !in old(seqs) && r.value < nextId && waiting == old(waiting) + [r.value]
        && seqs == old(seqs)[r.value := NewSequence(prompt, maxTokens, ignoreEos, maxLen)]
    {
      hide RowOk, WorldOk, WaitOk, Promised, Seated, PagedKVCache.Valid, NoDup, FinishReason, Snug, FitsSpan, Ample;
      if maxLen.Some? && |prompt| > maxLen.value { return None; }
      var q := NewSequence(prompt, maxTokens, ignoreEos, maxLen);
      NewSequenceWaits(net, eos, prompt, maxTokens, ignoreEos, maxLen);
      NewRequest(Snapshot([], 0, Live, Admitted), q);
      bounds := Admissible(bounds, q.Req());
      AdmissibleSnug(old(bounds), |running|, cache.slotBlocks, |cache.prefixBlockRefs|, seqs, nextId, q);
      waiting := waiting + [nextId];
      seqs := seqs[nextId := q];
      r := Some(nextId);
      nextId := nextId + 1;
      assert Snapshot([], 0, Live, Admitted) == old(Snapshot([], 0, Live, Admitted)).(waiting := waiting, seqs := seqs, nextId := nextId);
    }

    /** Move the first waiting request into the batch: take a slot, and share the blocks of
        its longest stored prefix. */
    method AdmitOne(batch: seq<nat>)
      requires Mid(batch, 0, Live, Admitted) && waiting != [] && cache.freeSlots != []
      requires |running| + |batch| < maxNumSeqs
      modifies this`waiting, this`seqs, cache
      ensures waiting == old(waiting[1..]) && Mid(batch + [old(waiting[0])], 0, Live, Admitted)
      ensures
        var id := old(waiting[0]);
        && id in old(seqs) && id in seqs && seqs == old(seqs)[id := seqs[id]]
        && old(seqs)[id].status == Waiting
        && TookPrefix(old(seqs)[id], seqs[id], old(cache.trie), old(cache.freeSlots), cache.slotBlocks)
      ensures cache.prefixBlockRefs == old(cache.prefixBlockRefs) && cache.freeBlocks == old(cache.freeBlocks)
      ensures Touched(old(cache.trie), cache.trie, old(seqs)[old(waiting[0])].prompt, cache.lru)
      ensures |cache.slotBlocks| == |old(cache.slotBlocks)|
      ensures forall s :: 0 <= s < |cache.slotBlocks| && s != Last(old(cache.freeSlots)) ==>
        cache.slotBlocks[s] == old(cache.slotBlocks)[s]
    {
      hide RowOk, WorldOk, WaitOk, Promised, Listed, Seated, Balanced, EntriesOk, Touched, LongestMatch,
           Distinct, NoDup, Counted, Holds, Snug, Ample, Steady, Excused;
      var id := waiting[0];
      assert id in waiting;
      ghost var st := Snapshot(batch, 0, Live, Admitted);
      Known(st);
      WaitingHere(batch, id);
      var q := seqs[id];
      waiting := waiting[1..];
      var slot, matched, blocks := TakePrefix(st.w, q.prompt);
      AdmitState(st, cache.trie, matched, blocks, cache.lru);
      MatchFits(bounds, cache, maxNumSeqs, specK, q, |blocks|, matched);
      SnugAdmitted(bounds, |running| + |batch|, st.w.tables, |cache.prefixBlockRefs|, seqs, id, slot, matched, blocks);
      seqs := seqs[id := Admit(q, slot, matched)];
      assert Snapshot(batch + [id], 0, Live, Admitted) == Admitting(st, cache.trie, matched, blocks);
    }

    /** Take the last free slot and point it at the blocks of the longest stored prefix. */
    method TakePrefix(ghost w: World, prompt: seq<Token>) returns (slot: nat, matched: nat, blocks: seq<nat>)
      requires cache.Valid() && cache.freeSlots != [] && WorldOk(w) && w.trie == cache.trie && w.bs == cache.blockSize
      modifies cache
      ensures cache.Valid() && Distinct(cache.trie)
      ensures slot == Last(old(cache.freeSlots)) && cache.freeSlots == Init(old(cache.freeSlots))
      ensures slot < |old(cache.slotBlocks)| && cache.slotBlocks == old(cache.slotBlocks)[slot := blocks]
      ensures LongestMatch(old(cache.trie), prompt, matched, blocks) && |blocks| * cache.blockSize == matched <= |prompt|
      ensures Touched(old(cache.trie), cache.trie, prompt, cache.lru) && SameRefs(old(cache.trie), cache.trie)
      ensures cache.store == old(cache.store) && cache.prefixBlockRefs == old(cache.prefixBlockRefs)
      ensures cache.freeBlocks == old(cache.freeBlocks)
    {
      hide WorldOk, Balanced, EntriesOk, Touched, LongestMatch, Distinct, NoDup, Counted, Holds, SameRefs;
      var taken := cache.Alloc();
      slot := taken.value;
      matched, blocks := cache.LookupPrefix(prompt);
      MatchedEntry(w, cache.trie, prompt, matched, blocks, cache.lru);
      if matched > 0 && blocks != [] {
        cache.ShareBlocks(slot, blocks);
      } else {
        assert blocks == [] by { if blocks != [] { MulMono(1, |blocks|, cache.blockSize); } }
      }
    }

    lemma WaitingHere(batch: seq<nat>, id: nat)
      requires Mid(batch, 0, Live, Admitted) && id in waiting && id in seqs
      ensures Excused(seqs[id]) && (bounds.Some? ==> Steady(seqs[id], bounds.value.span))
    {
      hide RowOk, WorldOk, Seated, Excused, Steady, WithinCap, PagedKVCache.Valid;
    }

    /** Admit waiting requests in arrival order while slots, blocks and the token budget allow;
        the first one is never refused for its length. */
    method FillBatch() returns (batch: seq<nat>)
      requires Mid([], 0, Live, Admitted)
      modifies this`waiting, this`seqs, cache
      ensures Mid(batch, 0, Live, Admitted)
      ensures old(waiting) == batch + waiting && AllEvolve(old(seqs), seqs) && AllRescheduled(old(seqs), seqs, [])
      ensures forall id :: id in batch ==> id in seqs
      ensures AllShare(old(cache.trie), seqs, cache.slotBlocks, batch) && SameBlocks(old(cache.trie), cache.trie)
      ensures forall id :: id in running ==> id in seqs && id in old(seqs) && seqs[id] == old(seqs)[id]
      ensures |batch| >= 2 ==> TokenSum(batch, seqs) <= maxBatchTokens
      ensures batch != [] ==> |running| + |batch| <= maxNumSeqs
      ensures batch == [] ==> seqs == old(seqs)
      ensures batch == [] && waiting != [] && |running| < maxNumSeqs ==> cache.freeSlots == [] || cache.freeBlocks == []
      ensures |running| >= maxNumSeqs || old(cache.freeSlots) == [] || old(cache.freeBlocks) == [] ==> batch == []
      ensures cache.freeBlocks == old(cache.freeBlocks) && (batch == [] ==> cache.freeSlots == old(cache.freeSlots))
      ensures batch == [] ==> cache.slotBlocks == old(cache.slotBlocks) && cache.trie == old(cache.trie)
      ensures waiting != [] ==> waiting[0] in seqs
      ensures batch != [] && waiting != [] && |running| + |batch| < maxNumSeqs ==>
        || cache.freeSlots == [] || cache.freeBlocks == []
        || TokenSum(batch, seqs) + |seqs[waiting[0]].prompt| > maxBatchTokens
      ensures cache.prefixBlockRefs == old(cache.prefixBlockRefs)
    {
      hide RowOk, WorldOk, WaitOk, Promised, Seated, Listed, StateOk, Snapshot, PagedKVCache.Valid,
           FinishReason, Admit, Mid, AllEvolve, TokenSum, TookPrefix, AllRescheduled, AllShare, SameBlocks;
      batch := [];
      SharesNone(cache.trie, seqs, cache.slotBlocks);
      var tokens := 0;
      NoTokens(seqs);
      NothingRescheduled(seqs);
      KnownHere([]);
      while waiting != [] && |running| + |batch| < maxNumSeqs && cache.HasFreeSlot() && cache.HasFreeBlock()
        invariant Mid(batch, 0, Live, Admitted)
        invariant old(waiting) == batch + waiting && Reached(old(seqs), seqs, running)
        invariant AllShare(old(cache.trie), seqs, cache.slotBlocks, batch) && SameBlocks(old(cache.trie), cache.trie)
        invariant forall id :: id in waiting || id in running || id in batch ==> id in seqs
        invariant tokens == TokenSum(batch, seqs)
        invariant |batch| >= 2 ==> tokens <= maxBatchTokens
        invariant batch != [] ==> |running| + |batch| <= maxNumSeqs
        invariant batch == [] ==> seqs == old(seqs)
        invariant |running| >= maxNumSeqs || old(cache.freeSlots) == [] || old(cache.freeBlocks) == [] ==> batch == []
        invariant cache.freeBlocks == old(cache.freeBlocks) && (batch == [] ==> cache.freeSlots == old(cache.freeSlots))
        invariant batch == [] ==> cache.slotBlocks == old(cache.slotBlocks) && cache.trie == old(cache.trie)
        invariant cache.prefixBlockRefs == old(cache.prefixBlockRefs)
        decreases |waiting|
      {
        var id := waiting[0];
        assert id in waiting;
        if batch != [] && tokens + |seqs[id].prompt| > maxBatchTokens { break; }
        tokens := tokens + |seqs[id].prompt|;
        AdmitNext(batch, old(seqs), old(cache.trie));
        batch := batch + [id];
      }
    }

    /** Admit the head of the queue behind `batch`. */
    method AdmitNext(batch: seq<nat>, ghost first: Table, ghost stored: Node)
      requires Mid(batch, 0, Live, Admitted) && waiting != [] && cache.freeSlots != []
      requires |running| + |batch| < maxNumSeqs && waiting[0] in seqs && Reached(first, seqs, running)
      requires AllShare(stored, seqs, cache.slotBlocks, batch) && SameBlocks(stored, cache.trie)
      modifies this`waiting, this`seqs, cache
      ensures waiting == old(waiting[1..]) && Mid(batch + [old(waiting[0])], 0, Live, Admitted)
      ensures Reached(first, seqs, running)
      ensures AllShare(stored, seqs, cache.slotBlocks, batch + [old(waiting[0])]) && SameBlocks(stored, cache.trie)
      ensures forall id :: id in waiting || id in running || id in batch + [old(waiting[0])] ==> id in seqs
      ensures TokenSum(batch + [old(waiting[0])], seqs) == old(TokenSum(batch, seqs) + |seqs[waiting[0]].prompt|)
      ensures cache.prefixBlockRefs == old(cache.prefixBlockRefs) && cache.freeBlocks == old(cache.freeBlocks)
    {
      hide Mid, AllEvolve, TokenSum, TookPrefix, AllRescheduled, Admit, AllShare, SameBlocks, Touched;
      ghost var was, trie, free, id, tables := seqs, cache.trie, cache.freeSlots, waiting[0], cache.slotBlocks;
      assert id in waiting;
      KnownHere(batch);
      SeatsHere(batch, 0, Live, Admitted);
      AdmitOne(batch);
      SharesNext(stored, trie, cache.trie, was, seqs, tables, cache.slotBlocks, batch, id, free, cache.lru);
      TookAdmits(was[id], seqs[id], trie, free, cache.slotBlocks);
      BatchGrows(was, seqs, batch, id);
      EvolveStep(first, was, seqs);
      AdmitReschedules(first, was, seqs, [], id);
      KnownHere(batch + [id]);
    }

    /** Evict the running sequence with the fewest generated tokens: its blocks go back to the
        pool and its context will be recomputed. A provisioned engine never has cause to. */
    method PreemptOne() returns (ghost i: nat)
      requires Mid([], 0, Live, Admitted) && running != [] && bounds.None?
      modifies this`waiting, this`running, this`seqs, cache
      ensures Mid([], 0, Live, Admitted)
      ensures forall id :: id in old(running) ==> id in old(seqs) && old(seqs)[id].status == Running
      ensures i < |old(running)| && running == Without(old(running), i)
      ensures forall id :: id in old(running) ==> id in old(seqs)
      ensures FirstFewest(old(seqs), old(running), i)
      ensures
        var id := old(running)[i];
        var q := old(seqs)[id];
        if q.IsFinished(eos)
        then waiting == old(waiting) && seqs == old(seqs)[id := q.(status := Finished)]
        else waiting == old(waiting) + [id] && seqs == old(seqs)[id := Preempt(q)]
      ensures cache.prefixBlockRefs == old(cache.prefixBlockRefs) && AllEvolve(old(seqs), seqs)
      ensures
        var slot := old(seqs)[old(running)[i]].slot;
        && slot.Some? && slot.value < |old(cache.slotBlocks)| && cache.trie == old(cache.trie)
        && cache.slotBlocks == old(cache.slotBlocks)[slot.value := []]
      ensures forall x :: x in running ==> x in old(running) && x in seqs && seqs[x] == old(seqs)[x]
    {
      hide Mid, FinishReason, AllEvolve, Preempt, Without;
      RunnersHere();
      var at := FewestOutputs(running, seqs);
      i := at;
      assert running[at] in running;
      Leave(at);
    }

    lemma RunnersHere()
      requires Mid([], 0, Live, Admitted)
      ensures forall id :: id in running ==> id in seqs && seqs[id].status == Running
    {
      hide Mid;
      forall id | id in running ensures id in seqs && seqs[id].status == Running { RunningHere(id); }
    }

    /** Running sequence `at` gives up its slot, for the queue or, when it is done, for good. */
    method Leave(at: nat)
      requires Mid([], 0, Live, Admitted) && at < |running| && bounds.None?
      modifies this`waiting, this`running, this`seqs, cache
      ensures Mid([], 0, Live, Admitted) && running == Without(old(running), at) && old(running)[at] in old(seqs)
      ensures
        var id := old(running)[at];
        var q := old(seqs)[id];
        if q.IsFinished(eos)
        then waiting == old(waiting) && seqs == old(seqs)[id := q.(status := Finished)]
        else waiting == old(waiting) + [id] && seqs == old(seqs)[id := Preempt(q)]
      ensures cache.prefixBlockRefs == old(cache.prefixBlockRefs) && AllEvolve(old(seqs), seqs)
      ensures
        var slot := old(seqs)[old(running)[at]].slot;
        && slot.Some? && slot.value < |old(cache.slotBlocks)| && cache.trie == old(cache.trie)
        && cache.slotBlocks == old(cache.slotBlocks)[slot.value := []]
      ensures forall x :: x in running ==> x in old(running) && x in seqs && seqs[x] == old(seqs)[x]
    {
      hide StateOk, PagedKVCache.Valid, NoDup, Pure, FinishReason, AllEvolve, Preempt, Snug, CalmAll, Without, Ample;
      Unbounded(|running| - 1, |cache.prefixBlockRefs|);
      ghost var st := Snapshot([], 0, Live, Admitted);
      Known(st);
      NoTokens(seqs);
      var id := running[at];
      assert id in running;
      NoDupWithout(running, at);
      var q := seqs[id];
      RunningHere(id);
      LeaveState(st, at);
      LeavingEvolves(gate, seqs, id);
      running := Without(running, at);
      cache.Free(q.slot.value);
      if q.IsFinished(eos) {
        seqs := seqs[id := q.(status := Finished)];
        assert Snapshot([], 0, Live, Admitted) == Vacating(st, at, seqs[id]);
      } else {
        seqs := seqs[id := Preempt(q)];
        waiting := waiting + [id];
        assert Snapshot([], 0, Live, Admitted) == Vacating(st, at, seqs[id]).(waiting := waiting);
      }
    }

    /** There is a place to serve in, and the trie does not pin the whole pool. */
    predicate Room()
      reads cache
    {
      maxNumSeqs > 0 && cache.numSlots > 0 && |cache.prefixBlockRefs| < cache.numBlocks
    }

    /** There will always be room: the trie is kept within a budget smaller than the pool. */
    ghost predicate Roomy()
      reads cache
    {
      && maxNumSeqs > 0 && cache.numSlots > 0 && cache.WithinBudget()
      && cache.maxPrefixBlocks.Some? && cache.maxPrefixBlocks.value < cache.numBlocks
    }

    /** A request waits and a slot is free, but sequences run and the block pool is dry. */
    predicate Pressed()
      reads this, cache
    {
      waiting != [] && running != [] && cache.freeSlots != [] && cache.freeBlocks == []
    }

    /** Choose the next batch: waiting requests to prefill if any can be admitted, otherwise every
        running sequence decodes. Sequences are preempted exactly under block pressure, whether or
        not the sequence cap would have let anyone in, each time the first with the fewest outputs,
        and until the pressure or the bound of `maxNumSeqs` ends it. */
    method Schedule() returns (batch: seq<nat>, isPrefill: bool, ghost moved: seq<nat>)
      requires Inv()
      modifies this`waiting, this`running, this`seqs, cache
      ensures isPrefill ==> Mid(batch, 0, Live, Admitted) && batch != []
      ensures isPrefill ==> |running| + |batch| <= maxNumSeqs && forall id :: id in batch ==> id in seqs
      ensures isPrefill && |batch| >= 2 ==> TokenSum(batch, seqs) <= maxBatchTokens
      ensures isPrefill ==> AllShare(old(cache.trie), seqs, cache.slotBlocks, batch)
      ensures if isPrefill then SameBlocks(old(cache.trie), cache.trie) else cache.trie == old(cache.trie)
      ensures !isPrefill ==> Mid([], 0, Live, Admitted) && batch == running && |running| <= maxNumSeqs
      ensures forall id :: id in running ==> id in old(running) && id in seqs && !seqs[id].IsFinished(eos)
      ensures old(waiting) + moved == (if isPrefill then batch else []) + waiting
      ensures |moved| <= maxNumSeqs && forall id :: id in moved ==> id in old(running)
      ensures AllEvolve(old(seqs), seqs) && cache.prefixBlockRefs == old(cache.prefixBlockRefs)
      ensures AllRescheduled(old(seqs), seqs, moved) && NoDup(moved)
      ensures moved != [] <==> old(Pressed())
      ensures moved == [] ==> cache.freeBlocks == old(cache.freeBlocks) && running == old(running)
      ensures Evicted(old(seqs), old(running), moved, running)
      ensures NoneTooMany(old(seqs), old(cache.slotBlocks), old(cache.trie), moved, cache.numBlocks)
      ensures !isPrefill && |moved| < maxNumSeqs ==> !Pressed()
      ensures bounds.Some? ==> moved == []
      ensures old(HasWork() && Room()) ==> batch != []
      ensures old(waiting != [] && running == []) ==> (batch != [] <==> old(Room()))
    {
      hide RowOk, WorldOk, WaitOk, Promised, Seated, Listed, StateOk, Snapshot, PagedKVCache.Valid,
           FinishReason, Mid, Evolves, Preempt, Rescheduled, Moving, NoneTooMany, Vacated, Evicted, AllShare, SameBlocks;
      moved := [];
      NoneMoved(seqs, cache.slotBlocks, cache.trie, cache.numBlocks);
      var preempted := 0;
      KnownHere([]);
      MovingStart(eos, seqs, running, waiting);
      while true
        invariant Mid([], 0, Live, Admitted) && preempted <= maxNumSeqs && |moved| == preempted && |running| <= maxNumSeqs
        invariant Moving(eos, old(seqs), old(running), old(waiting), seqs, running, waiting, moved)
        invariant cache.prefixBlockRefs == old(cache.prefixBlockRefs)
        invariant bounds.Some? ==> moved == []
        invariant old(HasWork()) ==> HasWork()
        invariant old(running) == [] ==> running == [] && preempted == 0 && waiting == old(waiting)
        invariant moved != [] ==> old(Pressed())
        invariant moved == [] ==> waiting == old(waiting) && running == old(running)
        invariant moved == [] ==> cache.freeSlots == old(cache.freeSlots) && cache.freeBlocks == old(cache.freeBlocks)
        invariant cache.trie == old(cache.trie) && cache.slotBlocks == Vacated(old(cache.slotBlocks), old(seqs), moved)
        invariant NoneTooMany(old(seqs), old(cache.slotBlocks), old(cache.trie), moved, cache.numBlocks)
        decreases maxNumSeqs - preempted
      {
        ghost var was, queue := seqs, waiting;
        IdleHere();
        batch := FillBatch();
        MovingFilled(eos, old(seqs), old(running), old(waiting), was, seqs, running, queue, moved);
        if batch != [] { return batch, true, moved; }
        assert batch + waiting == waiting;
        var pressure := waiting != [] && running != [] && cache.HasFreeSlot() && !cache.HasFreeBlock();
        if !(pressure && preempted < maxNumSeqs) {
          IdleHere();
          return running, false, moved;
        }
        moved := Relieve(old(seqs), old(running), old(waiting), moved, old(cache.slotBlocks));
        preempted := preempted + 1;
      }
    }

    /** One preemption under block pressure. */
    method Relieve(ghost first: Table, ghost ran: seq<nat>, ghost queue: seq<nat>, ghost moved: seq<nat>,
                   ghost tables: seq<seq<nat>>)
      returns (ghost more: seq<nat>)
      requires Mid([], 0, Live, Admitted) && Moving(eos, first, ran, queue, seqs, running, waiting, moved)
      requires running != [] && cache.freeSlots != [] && cache.freeBlocks == []
      requires cache.slotBlocks == Vacated(tables, first, moved)
      requires NoneTooMany(first, tables, cache.trie, moved, cache.numBlocks)
      modifies this`waiting, this`running, this`seqs, cache
      ensures Mid([], 0, Live, Admitted) && Moving(eos, first, ran, queue, seqs, running, waiting, more)
      ensures |more| == |moved| + 1 && |running| < |old(running)| && waiting != [] && bounds.None?
      ensures cache.prefixBlockRefs == old(cache.prefixBlockRefs)
      ensures cache.trie == old(cache.trie) && cache.slotBlocks == Vacated(tables, first, more)
      ensures NoneTooMany(first, tables, cache.trie, more, cache.numBlocks)
    {
      hide StateOk, Snapshot, PagedKVCache.Valid, FinishReason, Mid, Evolves, Preempt, Rescheduled, Moving, NoneTooMany,
           Vacated, Evicted;
      ghost var before, list, line := seqs, running, waiting;
      DryHere([]);
      UnfreeHere();
      NoDupHere();
      ghost var i := PreemptOne();
      assert list[i] in list;
      SlotKept(eos, first, ran, queue, before, list, line, moved, i);
      OneMore(first, tables, cache.trie, moved, cache.numBlocks, list[i]);
      MovingNext(eos, first, ran, queue, before, seqs, list, line, moved, i);
      more := moved + [list[i]];
    }

    /** Prefill one admitted sequence whose table covers its prompt, and append the token it
        yields. The K/V of its shared prefix is there already and is not written again. */
    method FillOne(batch: seq<nat>, k: nat)
      requires Mid(batch, k, Filled, Admitted) && k < |batch| && batch[k] in seqs && seqs[batch[k]].slot.Some?
      requires seqs[batch[k]].slot.value < |cache.slotBlocks|
      requires |seqs[batch[k]].prompt| <= |cache.slotBlocks[seqs[batch[k]].slot.value]| * cache.blockSize
      modifies this`seqs, cache`store
      ensures Mid(batch, k + 1, Filled, Admitted)
      ensures
        var id := batch[k];
        && id in old(seqs) && id in seqs && seqs == old(seqs)[id := seqs[id]]
        && seqs[id] == Prefilled(old(seqs)[id], Next(net, old(seqs)[id].prompt))
        && old(seqs)[id].fold == |old(seqs)[id].outputs|
    {
      hide WorldOk, WaitOk, Promised, Listed, Seated, Balanced, EntriesOk, Distinct, Counted, FinOk, Holds,
           Exclusive, WritesWithin, Snug, Ample;
      ghost var st := Snapshot(batch, k, Filled, Admitted);
      var id := batch[k];
      var q := seqs[id];
      BatchSeat(st, k);
      SnugRow(bounds, |running| + |batch|, cache.slotBlocks, |cache.prefixBlockRefs|, seqs, id,
              Prefilled(q, Next(net, q.prompt)));
      var store, tok := PrefillRow(net, cache.store, cache.slotBlocks[q.slot.value], cache.blockSize, q.prompt,
                                   q.matched, q.matched, chunkSize);
      FillState(st, store, tok);
      cache.store := store;
      seqs := seqs[id := Prefilled(q, tok)];
      assert Snapshot(batch, k + 1, Filled, Admitted)
          == st.(w := st.w.(store := store), seqs := seqs, k := k + 1);
    }

    /** The table of sequence `id` is too short for `n` positions. */
    ghost predicate Lacks(id: nat, n: nat)
      reads this, cache
    {
      && id in seqs && seqs[id].slot.Some? && seqs[id].slot.value < |cache.slotBlocks|
      && cache.blockSize > 0 && |cache.slotBlocks[seqs[id].slot.value]| < Needed(n, cache.blockSize)
    }

    /** No block is free, and one of `ids` has no room for `n` more positions. */
    ghost predicate RowShort(ids: seq<nat>, n: nat)
      reads this, cache
    {
      cache.freeBlocks == [] && exists id :: id in ids && id in seqs && Lacks(id, seqs[id].length + n)
    }

    /** No block is free, and one of `ids` has no room for its prompt. */
    ghost predicate PromptShort(ids: seq<nat>)
      reads this, cache
    {
      cache.freeBlocks == [] && exists id :: id in ids && id in seqs && Lacks(id, |seqs[id].prompt|)
    }

    /** The positions the widest verify pass may need past a row's length. */
    function SpecWidth(): nat {
      specK + 2
    }

    /** Where a step of this kind raises: the pool is dry and a sequence needs a block. */
    ghost predicate Starved(kind: Kind)
      reads this, cache
    {
      match kind
      case Prefilling => exists ids :: PromptShort(ids)
      case Decoding => exists ids :: RowShort(ids, 1)
      case Speculating => exists ids :: RowShort(ids, SpecWidth())
    }

    ghost predicate OutOfBlocks()
      reads this, cache
    {
      cache.freeBlocks == [] && exists kind :: Starved(kind)
    }

    lemma SomeRowShort(ids: seq<nat>, slots: seq<nat>, lengths: seq<nat>, n: nat)
      requires cache.freeBlocks == [] && cache.blockSize > 0 && |slots| == |lengths| == |ids|
      requires SlotShort(cache.slotBlocks, slots, lengths, cache.blockSize)
      requires forall i :: 0 <= i < |ids| ==>
        ids[i] in seqs && seqs[ids[i]].slot == Some(slots[i]) && lengths[i] == seqs[ids[i]].length + n
      ensures RowShort(ids, n)
    {
      hide Needed;
      var i :| 0 <= i < |slots| && slots[i] < |cache.slotBlocks|
        && |cache.slotBlocks[slots[i]]| < Needed(lengths[i], cache.blockSize);
      assert ids[i] in ids && Lacks(ids[i], seqs[ids[i]].length + n);
    }

    lemma SomePromptShort(ids: seq<nat>, part: seq<nat>, slots: seq<nat>, lengths: seq<nat>)
      requires cache.freeBlocks == [] && cache.blockSize > 0 && |slots| == |lengths| == |part|
      requires SlotShort(cache.slotBlocks, slots, lengths, cache.blockSize)
      requires forall i :: 0 <= i < |part| ==>
        part[i] in ids && part[i] in seqs && seqs[part[i]].slot == Some(slots[i]) && lengths[i] == |seqs[part[i]].prompt|
      ensures PromptShort(ids)
    {
      hide Needed;
      var i :| 0 <= i < |slots| && slots[i] < |cache.slotBlocks|
        && |cache.slotBlocks[slots[i]]| < Needed(lengths[i], cache.blockSize);
      assert Lacks(part[i], |seqs[part[i]].prompt|);
    }

    lemma ShortForMore(ids: seq<nat>, more: seq<nat>, n: nat, m: nat)
      requires RowShort(ids, n) && n <= m && forall id :: id in ids ==> id in more
      ensures RowShort(more, m)
    {
      hide Needed;
      var id :| id in ids && id in seqs && Lacks(id, seqs[id].length + n);
      NeededMono(seqs[id].length + n, seqs[id].length + m, cache.blockSize);
      assert Lacks(id, seqs[id].length + m);
    }

    /** Growth to `n` positions is within what the engine is provisioned for. */
    ghost predicate WithinSpan(n: nat)
      reads this`bounds
    {
      bounds.Some? ==> n <= bounds.value.span + specK
    }

    /** Grow the listed live slots. It fails only when the pool runs dry, and never in a provisioned engine. */
    method Grow(batch: seq<nat>, k: nat, done: Phase, todo: Phase, slots: seq<nat>, lengths: seq<nat>) returns (ok: bool)
      requires Mid(batch, k, done, todo) && |slots| == |lengths|
      requires forall i :: 0 <= i < |slots| ==> slots[i] < cache.numSlots && slots[i] !in cache.freeSlots
      requires forall i :: 0 <= i < |lengths| ==> WithinSpan(lengths[i])
      modifies cache`freeBlocks, cache`slotBlocks, cache`blockRefcount
      ensures Mid(batch, k, done, todo) && |cache.slotBlocks| == |old(cache.slotBlocks)|
      ensures forall s :: 0 <= s < |cache.slotBlocks| ==> old(cache.slotBlocks[s]) <= cache.slotBlocks[s]
      ensures ok ==> forall i :: 0 <= i < |slots| ==> lengths[i] <= |cache.slotBlocks[slots[i]]| * cache.blockSize
      ensures !ok ==> cache.freeBlocks == [] && bounds.None?
      ensures !ok ==> cache.blockSize > 0 && SlotShort(cache.slotBlocks, slots, lengths, cache.blockSize)
      ensures ok <==> Demand(Sizes(old(cache.slotBlocks)), slots, lengths, cache.blockSize) <= |old(cache.freeBlocks)|
      ensures ok ==> Sizes(cache.slotBlocks) == Fitted(Sizes(old(cache.slotBlocks)), slots, lengths, cache.blockSize)
      ensures ok ==>
        |cache.freeBlocks| == |old(cache.freeBlocks)| - Demand(Sizes(old(cache.slotBlocks)), slots, lengths, cache.blockSize)
    {
      hide RowOk, WorldOk, WaitOk, Promised, Listed, Seated, Balanced, EntriesOk, Distinct, Counted, FinOk, Snug,
           Provisioned, GrownToNeed, SlotShort, Demand, Needed;
      ghost var st := Snapshot(batch, k, done, todo);
      ok := cache.EnsureCapacity(slots, lengths);
      GrowState(st, cache.slotBlocks, slots);
      if bounds.Some? {
        forall i | 0 <= i < |lengths| ensures Needed(lengths[i], cache.blockSize) <= bounds.value.cap {
          NeededMono(lengths[i], bounds.value.span + specK, cache.blockSize);
        }
      }
      SnugGrown(bounds, |running| + |batch|, st.w.tables, cache.slotBlocks, |cache.prefixBlockRefs|, seqs, slots, lengths,
                cache.blockSize);
      assert Snapshot(batch, k, done, todo) == st.(w := st.w.(tables := cache.slotBlocks));
      if !ok && bounds.Some? { NeverShort(batch, k, done, todo, slots, lengths); }
    }

    /** In a provisioned engine a dry pool leaves no slot that still needs a block. */
    lemma NeverShort(batch: seq<nat>, k: nat, done: Phase, todo: Phase, slots: seq<nat>, lengths: seq<nat>)
      requires Mid(batch, k, done, todo) && bounds.Some? && cache.freeBlocks == [] && |slots| == |lengths|
      requires forall i :: 0 <= i < |slots| ==> slots[i] < cache.numSlots && slots[i] !in cache.freeSlots
      requires forall i :: 0 <= i < |slots| ==> Needed(lengths[i], cache.blockSize) <= bounds.value.cap
      ensures !SlotShort(cache.slotBlocks, slots, lengths, cache.blockSize)
    {
      hide RowOk, WorldOk, WaitOk, Promised, Listed, Seated, Balanced, EntriesOk, Distinct, Counted, FinOk,
           Provisioned, Needed, WithinCap;
      NeverDry(Snapshot(batch, k, done, todo), cache.blockRefcount, cache.numBlocks, cache.prefixBlockRefs, bounds.value);
    }

    /** In a provisioned engine a dry pool leaves no free slot. */
    lemma DryHere(batch: seq<nat>)
      requires Mid(batch, 0, Live, Admitted)
      ensures bounds.Some? && cache.freeBlocks == [] ==> cache.freeSlots == []
    {
      hide RowOk, WorldOk, WaitOk, Promised, Listed, Seated, Balanced, EntriesOk, Distinct, Counted, FinOk,
           Provisioned, Needed, WithinCap;
      if bounds.Some? && cache.freeBlocks == [] {
        NeverDry(Snapshot(batch, 0, Live, Admitted), cache.blockRefcount, cache.numBlocks, cache.prefixBlockRefs,
                 bounds.value);
      }
    }

    /** Store one filled prompt in the prefix cache; the sequence is then ready to decode. */
    method StoreOne(batch: seq<nat>, k: nat, ghost more: nat)
      requires Mid(batch, k, Live, Filled) && k < |batch| && batch[k] in seqs && seqs[batch[k]].slot.Some?
      requires seqs[batch[k]].slot.value < |cache.slotBlocks|
      requires |seqs[batch[k]].prompt| <= |cache.slotBlocks[seqs[batch[k]].slot.value]| * cache.blockSize
      modifies cache
      ensures Mid(batch, k + 1, Live, Filled)
      ensures cache.slotBlocks == old(cache.slotBlocks) && cache.freeSlots == old(cache.freeSlots)
      ensures old(cache.WithinBudget()) ==> cache.WithinBudget()
      ensures Stored(old(cache.trie), cache.trie, seqs[batch[k]].prompt, cache.blockSize, cache.maxPrefixEntries,
                     cache.maxPrefixBlocks)
      ensures
        var prompt, bs := seqs[batch[k]].prompt, cache.blockSize;
        bs > 0 && (old(cache.NoPressure(|prompt| / bs + more)) ==>
          KeptAll(old(cache.trie), cache.trie) && AllStored(cache.trie, prompt, |prompt|, bs) && cache.NoPressure(more))
    {
      hide RowOk, WorldOk, WaitOk, Promised, Listed, Seated, Balanced, StoredPath, Counted, FinOk,
           KeptAll, AllStored, WithinCap, Provisioned, Steady, Stored, StoredWithin;
      ghost var st := Snapshot(batch, k, Live, Filled);
      var q := seqs[batch[k]];
      CoversWhole(|q.prompt|, |cache.slotBlocks[q.slot.value]|, cache.blockSize);
      cache.StorePrefix(q.prompt, q.slot.value);
      assert StoresPrompt(st.w, cache.trie, q, cache.lru);
      StoreState(st, cache.trie, cache.lru);
      assert Snapshot(batch, k + 1, Live, Filled) == st.(w := st.w.(trie := cache.trie), k := k + 1);
    }

    lemma BatchHere(batch: seq<nat>, k: nat, done: Phase, todo: Phase, i: nat)
      requires Mid(batch, k, done, todo) && i < |batch|
      ensures batch[i] in seqs && SeatOk(seqs[batch[i]], cache.freeSlots, |cache.slotBlocks|)
      ensures cache.numSlots == |cache.slotBlocks|
      ensures seqs[batch[i]].status == Running && seqs[batch[i]].matched <= |seqs[batch[i]].prompt|
      ensures seqs[batch[i]].prompt != []
      ensures (if i < k then done else todo) == Filled ==>
        |seqs[batch[i]].prompt| <= |cache.slotBlocks[seqs[batch[i]].slot.value]| * cache.blockSize
      ensures NoDup(batch) && forall id :: id in running ==> id !in batch
      ensures batch[i] !in waiting && batch[i] < nextId
      ensures WithinSpan(|seqs[batch[i]].prompt|)
    {
      hide StateOk, RowOk, Balanced;
      var st := Snapshot(batch, k, done, todo);
      Known(st);
      BatchSeat(st, i);
      BatchMember(st, i);
    }

    lemma SeatsHere(batch: seq<nat>, k: nat, done: Phase, todo: Phase)
      requires Mid(batch, k, done, todo)
      ensures SeatedIn(seqs, batch, |cache.slotBlocks|) && cache.numSlots == |cache.slotBlocks| && cache.blockSize > 0
      ensures forall i :: 0 <= i < |batch| ==>
        SeatOk(seqs[batch[i]], cache.freeSlots, |cache.slotBlocks|) && WithinSpan(|seqs[batch[i]].prompt|)
    {
      hide Mid;
      forall i | 0 <= i < |batch|
        ensures batch[i] in seqs && SeatOk(seqs[batch[i]], cache.freeSlots, |cache.slotBlocks|)
        ensures WithinSpan(|seqs[batch[i]].prompt|)
      {
        BatchHere(batch, k, done, todo, i);
      }
      ShapeHere(batch, k, done, todo);
    }

    lemma ShapeHere(batch: seq<nat>, k: nat, done: Phase, todo: Phase)
      requires Mid(batch, k, done, todo)
      ensures cache.Valid() && cache.numSlots == |cache.slotBlocks| && cache.blockSize > 0
    {
      hide StateOk, Sized, Balanced;
    }

    lemma PhaseHere(batch: seq<nat>, k: nat, done: Phase, todo: Phase, done': Phase, todo': Phase)
      requires Mid(batch, k, done, todo)
      requires (k == |batch| && done == todo') || (k == 0 && todo == todo') || (batch == [] && k == 0)
      ensures Mid(batch, 0, done', todo')
    {
      hide StateOk, PagedKVCache.Valid;
      var st := Snapshot(batch, k, done, todo);
      NextPhase(st, todo', done');
      assert Snapshot(batch, 0, done', todo') == st.(k := 0, todo := todo', done := done');
    }

    /** The prompts of the batch fit their tables and the free blocks. */
    ghost predicate Coverable(batch: seq<nat>)
      reads this, cache
    {
      && cache.blockSize > 0 && SeatedIn(seqs, batch, |cache.slotBlocks|)
      && Demand(Sizes(cache.slotBlocks), SlotsOf(seqs, batch), PromptsOf(seqs, batch), cache.blockSize) <= |cache.freeBlocks|
    }

    /** Prefill the batch one sequence at a time, reusing shared prefixes, or packed into one
        pass, which rewrites shared K/V with the same rows. */
    method PrefillBatch(batch: seq<nat>) returns (ok: bool)
      requires Mid(batch, 0, Live, Admitted)
      modifies this`seqs, cache
      ensures cache.Valid()
      ensures ok ==> Mid(batch, |batch|, Filled, Admitted) && FilledSince(net, old(seqs), seqs, batch, |batch|)
      ensures cache.prefixBlockRefs == old(cache.prefixBlockRefs)
      ensures cache.trie == old(cache.trie) && cache.prefixEntryCount == old(cache.prefixEntryCount)
      ensures ok <==> old(Coverable(batch))
      ensures !ok ==> PromptShort(batch) && bounds.None?
    {
      hide StateOk, Snapshot, PagedKVCache.Valid, FilledSince;
      var varlen: bool := *;
      PhaseHere(batch, 0, Live, Admitted, Filled, Admitted);
      if varlen && |batch| > 1 {
        ok := PrefillPacked(batch);
      } else {
        ok := PrefillSerial(batch);
      }
    }

    method PrefillSerial(batch: seq<nat>) returns (ok: bool)
      requires Mid(batch, 0, Filled, Admitted)
      modifies this`seqs, cache
      ensures cache.Valid()
      ensures ok ==> Mid(batch, |batch|, Filled, Admitted) && FilledSince(net, old(seqs), seqs, batch, |batch|)
      ensures cache.prefixBlockRefs == old(cache.prefixBlockRefs)
      ensures cache.trie == old(cache.trie) && cache.prefixEntryCount == old(cache.prefixEntryCount)
      ensures ok <==> old(Coverable(batch))
      ensures !ok ==> PromptShort(batch) && bounds.None?
    {
      hide Mid, FilledSince, PagedKVCache.Valid, Prefilled, Demand, Fitted, DemandLeft;
      SeatsHere(batch, 0, Filled, Admitted);
      NoneFilled(net, seqs, batch);
      ghost var slots, lengths, bs := SlotsOf(seqs, batch), PromptsOf(seqs, batch), cache.blockSize;
      ghost var had, free := Sizes(cache.slotBlocks), |cache.freeBlocks|;
      DemandStart(had, free, slots, lengths, bs);
      for k := 0 to |batch|
        invariant Mid(batch, k, Filled, Admitted) && FilledSince(net, old(seqs), seqs, batch, k)
        invariant cache.prefixBlockRefs == old(cache.prefixBlockRefs)
        invariant cache.trie == old(cache.trie) && cache.prefixEntryCount == old(cache.prefixEntryCount)
        invariant DemandLeft(had, free, Sizes(cache.slotBlocks), |cache.freeBlocks|, slots, lengths, bs, k)
      {
        BatchHere(batch, k, Filled, Admitted, k);
        var q := seqs[batch[k]];
        NotYetFilled(net, old(seqs), seqs, batch, k);
        DemandNext(had, free, Sizes(cache.slotBlocks), |cache.freeBlocks|, slots, lengths, bs, k);
        ok := Grow(batch, k, Filled, Admitted, [q.slot.value], [|q.prompt|]);
        if !ok {
          ShapeHere(batch, k, Filled, Admitted);
          SomePromptShort(batch, [batch[k]], [q.slot.value], [|q.prompt|]);
          return;
        }
        assert |q.prompt| <= |cache.slotBlocks[[q.slot.value][0]]| * cache.blockSize;
        ghost var was := seqs;
        FillOne(batch, k);
        FilledStep(net, old(seqs), was, seqs, batch, k);
      }
      DemandMet(had, free, Sizes(cache.slotBlocks), |cache.freeBlocks|, slots, lengths, bs);
      ShapeHere(batch, |batch|, Filled, Admitted);
      ok := true;
    }

    method PrefillPacked(batch: seq<nat>) returns (ok: bool)
      requires Mid(batch, 0, Filled, Admitted)
      modifies this`seqs, cache
      ensures cache.Valid()
      ensures ok ==> Mid(batch, |batch|, Filled, Admitted) && FilledSince(net, old(seqs), seqs, batch, |batch|)
      ensures cache.prefixBlockRefs == old(cache.prefixBlockRefs)
      ensures cache.trie == old(cache.trie) && cache.prefixEntryCount == old(cache.prefixEntryCount)
      ensures ok <==> old(Coverable(batch))
      ensures !ok ==> PromptShort(batch) && bounds.None?
    {
      hide StateOk, Snapshot, PagedKVCache.Valid, Prefilled, Demand, Fitted, Sized, MembersHold;
      SeatsHere(batch, 0, Filled, Admitted);
      var slots, lengths := SlotsOf(seqs, batch), PromptsOf(seqs, batch);
      ok := Grow(batch, 0, Filled, Admitted, slots, lengths);
      if !ok {
        SomePromptShort(batch, batch, slots, lengths);
        return;
      }
      assert forall i :: 0 <= i < |batch| ==> lengths[i] <= |cache.slotBlocks[slots[i]]| * cache.blockSize;
      NoneFilled(net, seqs, batch);
      var firsts := PackedPass(batch);
      ghost var tables, store := cache.slotBlocks, cache.store;
      for k := 0 to |batch|
        invariant Mid(batch, k, Filled, Admitted) && FilledSince(net, old(seqs), seqs, batch, k)
        invariant cache.prefixBlockRefs == old(cache.prefixBlockRefs)
        invariant cache.trie == old(cache.trie) && cache.prefixEntryCount == old(cache.prefixEntryCount)
        invariant cache.slotBlocks == tables && cache.store == store
      {
        BatchHere(batch, k, Filled, Admitted, k);
        assert seqs[batch[k]] == old(seqs)[batch[k]];
        MemberHeld(net, store, tables, cache.blockSize, old(seqs), batch, k);
        ghost var was := seqs;
        TakeFirst(batch, k, firsts[k]);
        FilledStep(net, old(seqs), was, seqs, batch, k);
      }
    }

    /** One launch over all prompts laid end to end; every sequence's token is read at the end of
        its own stretch. */
    method PackedPass(batch: seq<nat>) returns (firsts: seq<Token>)
      requires Mid(batch, 0, Filled, Admitted) && Covers(cache.slotBlocks, cache.blockSize, seqs, batch)
      modifies cache`store
      ensures Mid(batch, 0, Filled, Admitted)
      ensures MembersHold(net, cache.store, cache.slotBlocks, cache.blockSize, seqs, batch)
      ensures |firsts| == |batch| && forall i :: 0 <= i < |batch| ==>
        batch[i] in seqs && seqs[batch[i]].prompt != [] && firsts[i] == Next(net, seqs[batch[i]].prompt)
    {
      hide Mid, Packing, SharedHeld, StoreHolds, Packs, Evaluate, FlatSlotMapping, Untouched, Lengths, MembersHold;
      ghost var st := Snapshot(batch, 0, Filled, Admitted);
      PackingHere(batch);
      forall i | 0 <= i < |batch| ensures batch[i] in seqs && seqs[batch[i]].prompt != [] {
        BatchHere(batch, 0, Filled, Admitted, i);
      }
      PackShared(st);
      PackHeld(st);
      var prompts := PromptTokens(seqs, batch);
      var places := PlacesOf(cache.slotBlocks, cache.blockSize, seqs, batch);
      StoreSize(net, cache.store, places, prompts, HeldOf(seqs, batch));
      var ids, pos, cells, cu := Pack(prompts, places);
      var store, outs := PackedForward(net, cache.store, ids, cells, cu, pos, places, prompts, HeldOf(seqs, batch));
      assert PackedFor(st, store);
      PackedState(st, store);
      SetStore(batch, store);
      firsts := LastPicks(net, outs, cu, prompts);
    }

    lemma PackingHere(batch: seq<nat>)
      requires Mid(batch, 0, Filled, Admitted) && Covers(cache.slotBlocks, cache.blockSize, seqs, batch)
      ensures Packing(Snapshot(batch, 0, Filled, Admitted))
    {
      hide StateOk, PagedKVCache.Valid, Sized;
    }

    /** What a pass over the batch wrote. */
    method SetStore(batch: seq<nat>, store: Store)
      requires Mid(batch, 0, Filled, Admitted)
      requires
        var st := Snapshot(batch, 0, Filled, Admitted);
        StateOk(st.(w := st.w.(store := store)))
      modifies cache`store
      ensures Mid(batch, 0, Filled, Admitted) && cache.store == store
    {
      hide StateOk, Balanced, EntriesOk, Distinct, Counted, NoDup, Snug, Ample;
      ghost var st := Snapshot(batch, 0, Filled, Admitted);
      cache.store := store;
      assert Snapshot(batch, 0, Filled, Admitted) == st.(w := st.w.(store := store));
    }

    /** Append the token a prefilled prompt yields. */
    method TakeFirst(batch: seq<nat>, k: nat, tok: Token)
      requires Mid(batch, k, Filled, Admitted) && k < |batch| && batch[k] in seqs && seqs[batch[k]].slot.Some?
      requires
        var q := seqs[batch[k]];
        && q.slot.value < |cache.slotBlocks| && q.prompt != [] && tok == Next(net, q.prompt)
        && Holds(net, cache.store, cache.slotBlocks[q.slot.value], cache.blockSize, q.prompt)
      modifies this`seqs
      ensures Mid(batch, k + 1, Filled, Admitted)
      ensures
        var id := batch[k];
        && id in old(seqs) && id in seqs && seqs == old(seqs)[id := seqs[id]]
        && seqs[id] == Prefilled(old(seqs)[id], Next(net, old(seqs)[id].prompt))
        && old(seqs)[id].fold == |old(seqs)[id].outputs|
    {
      hide WorldOk, WaitOk, Promised, Listed, Seated, Balanced, EntriesOk, Distinct, Counted, FinOk, Holds,
           Exclusive, Snug, Ample;
      ghost var st := Snapshot(batch, k, Filled, Admitted);
      var id := batch[k];
      var q := seqs[id];
      BatchSeat(st, k);
      SnugRow(bounds, |running| + |batch|, cache.slotBlocks, |cache.prefixBlockRefs|, seqs, id, Prefilled(q, tok));
      FillState(st, cache.store, tok);
      seqs := seqs[id := Prefilled(q, tok)];
      assert Snapshot(batch, k + 1, Filled, Admitted) == st.(w := st.w.(store := cache.store), seqs := seqs, k := k + 1);
    }

    /** Store every prompt of the prefilled batch. */
    method StoreBatch(batch: seq<nat>)
      requires Mid(batch, |batch|, Filled, Admitted)
      modifies cache
      ensures Mid(batch, |batch|, Live, Filled)
      ensures old(cache.WithinBudget()) ==> cache.WithinBudget()
      ensures old(cache.NoPressure(WholeBlocks(seqs, batch, cache.blockSize))) ==>
        PromptsStored(cache.trie, seqs, batch, cache.blockSize)
      ensures BatchStored(old(cache.trie), cache.trie, seqs, batch, cache.blockSize, cache.maxPrefixEntries,
                          cache.maxPrefixBlocks)
    {
      hide StateOk, Snapshot, PagedKVCache.Valid, PagedKVCache.NoPressure, AllStored, KeptAll, PromptsStored, Sized,
           Stored;
      PhaseHere(batch, |batch|, Filled, Admitted, Live, Filled);
      ghost var roomy := cache.NoPressure(WholeBlocks(seqs, batch, cache.blockSize));
      assert batch[0..] == batch && batch[..0] == [];
      NonePromised(cache.trie, seqs, cache.blockSize);
      for k := 0 to |batch|
        invariant Mid(batch, k, Live, Filled)
        invariant old(cache.WithinBudget()) ==> cache.WithinBudget()
        invariant roomy ==> cache.NoPressure(WholeBlocks(seqs, batch[k..], cache.blockSize))
        invariant roomy ==> PromptsStored(cache.trie, seqs, batch[..k], cache.blockSize)
        invariant BatchStored(old(cache.trie), cache.trie, seqs, batch[..k], cache.blockSize, cache.maxPrefixEntries,
                              cache.maxPrefixBlocks)
      {
        BatchHere(batch, k, Live, Filled, k);
        ghost var was := cache.trie;
        assert batch[k..][1..] == batch[k + 1..];
        StoreOne(batch, k, WholeBlocks(seqs, batch[k + 1..], cache.blockSize));
        if roomy { PromptStored(was, cache.trie, seqs, batch, k, cache.blockSize); }
        BatchStoredNext(old(cache.trie), was, cache.trie, seqs, batch, k, cache.blockSize, cache.maxPrefixEntries,
                        cache.maxPrefixBlocks);
      }
      assert batch[..|batch|] == batch;
    }

    /** `Mid` with `list` in place of the running list. */
    ghost predicate MidWith(list: seq<nat>)
      reads this, cache
    {
      && cache.Valid() && StateOk(Snapshot([], 0, Live, Admitted).(running := list)) && CalmAll(gate, seqs)
      && Sized(|list|)
    }

    /** Member `i` of `list` is done: its status and its slot go. */
    method FinishOne(ghost list: seq<nat>, ghost i: nat, id: nat)
      requires MidWith(list) && i < |list| && list[i] == id && id in seqs && seqs[id].IsFinished(eos)
      modifies this`seqs, cache
      ensures MidWith(Without(list, i)) && old(seqs)[id].status == Running
      ensures seqs == old(seqs)[id := old(seqs)[id].(status := Finished)]
      ensures cache.trie == old(cache.trie)
      ensures cache.prefixBlockRefs == old(cache.prefixBlockRefs)
    {
      hide RowOk, WorldOk, WaitOk, Promised, Listed, Seated, Balanced, EntriesOk, Distinct, NoDup, Counted,
           FinOk, Pure, FinishReason, Snug, Ample;
      ghost var st := Snapshot([], 0, Live, Admitted).(running := list);
      assert id in st.running;
      SnugRow(bounds, |list|, cache.slotBlocks, |cache.prefixBlockRefs|, seqs, id, seqs[id].(status := Finished));
      RunningSeat(st, id);
      FinishRow(net, eos, seqs[id]);
      RetireState(st, i, seqs[id].(status := Finished));
      SnugVacated(bounds, |list|, cache.slotBlocks, |cache.prefixBlockRefs|, seqs[id := seqs[id].(status := Finished)],
                  seqs[id].slot.value);
      cache.Free(seqs[id].slot.value);
      seqs := seqs[id := seqs[id].(status := Finished)];
      assert Snapshot([], 0, Live, Admitted).(running := Without(list, i)) == Vacating(st, i, seqs[id]);
    }

    lemma JoinHere(batch: seq<nat>)
      requires Mid(batch, |batch|, Live, Filled)
      ensures MidWith(running + batch)
    {
      hide StateOk, PagedKVCache.Valid;
      var st := Snapshot(batch, |batch|, Live, Filled);
      JoinState(st);
      var joined := st.(running := running + batch, batch := [], k := 0);
      NextPhase(joined, Admitted, Live);
      assert Snapshot([], 0, Live, Admitted).(running := running + batch) == joined.(k := 0, todo := Admitted, done := Live);
    }

    /** Of the sequences in `all`, those that are done give back their slots. */
    method Sweep(all: seq<nat>) returns (still: seq<nat>)
      requires MidWith(all)
      modifies this`seqs, cache
      ensures MidWith(still) && Retired(eos, old(seqs), seqs) && |still| <= |all|
      ensures forall id :: id in still ==> id in all && id in seqs && !seqs[id].IsFinished(eos)
      ensures Sifted(eos, seqs, all, still)
      ensures cache.trie == old(cache.trie)
      ensures cache.prefixBlockRefs == old(cache.prefixBlockRefs)
    {
      hide FinishReason, MidWith, Retired, Without, Sifted, NoDup;
      still := [];
      NothingRetired(eos, seqs);
      ListHere(all);
      SiftedNone(eos, seqs);
      assert [] + all[0..] == all && all[..0] == [];
      for j := 0 to |all|
        invariant MidWith(still + all[j..]) && Retired(eos, old(seqs), seqs) && |still| <= j
        invariant Sifted(eos, old(seqs), all[..j], still)
        invariant cache.trie == old(cache.trie)
        invariant cache.prefixBlockRefs == old(cache.prefixBlockRefs)
      {
        var id := all[j];
        ghost var list := still + all[j..];
        assert list[|still|] == id;
        ListHere(list);
        SiftHere(old(seqs), all, j, still);
        if seqs[id].IsFinished(eos) {
          WithoutMiddle(still, all, j);
          ghost var was := seqs;
          FinishOne(list, |still|, id);
          RetiredStep(eos, old(seqs), was, seqs, id);
        } else {
          assert list == (still + [id]) + all[j + 1..];
          still := still + [id];
        }
      }
      assert still + all[|all|..] == still && all[..|all|] == all;
      RetiredSifts(eos, old(seqs), seqs, all, still);
      ListHere(still);
      SiftedLeft(eos, seqs, all, still);
    }

    /** Member `j` of `all` is looked at. */
    lemma SiftHere(was: Table, all: seq<nat>, j: nat, still: seq<nat>)
      requires NoDup(all) && j < |all| && all[j] in was && Sifted(eos, was, all[..j], still) && Retired(eos, was, seqs)
      ensures all[j] in seqs
      ensures Sifted(eos, was, all[..j + 1], if seqs[all[j]].IsFinished(eos) then still else still + [all[j]])
    {
      hide FinishReason, Sifted, Retired;
      RetiredSifts(eos, was, seqs, all[..j], still);
      assert all[..j + 1] == all[..j] + [all[j]];
      SiftedNext(eos, was, all[..j], still, all[j]);
    }

    /** The batch joins the end of the running list; sequences that are done leave it and give
        back their slots, and all others stand as they stood. */
    method Postprocess(batch: seq<nat>)
      requires Mid(batch, |batch|, Live, Filled) && |running| + |batch| <= maxNumSeqs
      modifies this`running, this`seqs, cache
      ensures Inv() && waiting == old(waiting) && Retired(eos, old(seqs), seqs)
      ensures Sifted(eos, seqs, old(running) + batch, running)
      ensures cache.trie == old(cache.trie)
      ensures cache.prefixBlockRefs == old(cache.prefixBlockRefs)
    {
      hide StateOk, PagedKVCache.Valid, FinishReason, Retired, Sifted;
      JoinHere(batch);
      running := running + batch;
      assert Snapshot([], 0, Live, Admitted).(running := running)
          == old(Snapshot([], 0, Live, Admitted)).(running := running);
      var still := Sweep(running);
      ghost var st := Snapshot([], 0, Live, Admitted).(running := still);
      running := still;
      assert Snapshot([], 0, Live, Admitted) == st;
    }

    lemma ListHere(list: seq<nat>)
      requires MidWith(list)
      ensures NoDup(list) && forall id :: id in list ==> id in seqs
    {
      hide StateOk, PagedKVCache.Valid;
      Known(Snapshot([], 0, Live, Admitted).(running := list));
    }

    // ---- decode --------------------------------------------------------------------

    /** The world the running rows live in. */
    ghost function Here(): World
      reads cache
    {
      World(net, eos, cache.blockSize, cache.slotBlocks, cache.trie, cache.store)
    }

    ghost predicate Feeding(feeds: seq<Feed>, width: nat)
      reads this, cache
    {
      var st := Snapshot([], 0, Live, Admitted);
      Listed(st) && FeedsOk(st, feeds, width)
    }

    /** The slot mappings of the fed rows: no row's new cells are touched by another row. */
    method RowsOf(feeds: seq<Feed>, width: nat) returns (rows: seq<Row>)
      requires Mid([], 0, Live, Admitted) && Feeding(feeds, width)
      ensures |rows| == |feeds| && Separate(rows, width)
      ensures forall i :: 0 <= i < |feeds| ==> feeds[i].id in seqs && FeedFits(Here(), seqs[feeds[i].id], feeds[i], width)
      ensures forall i :: 0 <= i < |feeds| ==>
        rows[i] == RowOf(cache.slotBlocks, cache.blockSize, PlaceOf(seqs, feeds[i]), width)
      ensures cache.blockSize > 0 && |cache.store| == net.numLayers
    {
      hide RowOk, WorldOk, WaitOk, Promised, Seated, PagedKVCache.Valid, FeedOk, Exclusive;
      ghost var st := Snapshot([], 0, Live, Admitted);
      WorldBs(st.w);
      var places := seq(|feeds|, i requires 0 <= i < |feeds| && feeds[i].id in seqs && seqs[feeds[i].id].slot.Some?
                                 reads this => PlaceOf(seqs, feeds[i]));
      FeedPlaces(st, feeds, width, places);
      rows := seq(|feeds|, i requires 0 <= i < |places| && PlaceFits(places[i], width) reads this, cache
                           => RowOf(cache.slotBlocks, cache.blockSize, places[i], width));
      PlacesSeparate(cache.slotBlocks, cache.trie, cache.blockSize, places, width, rows);
    }

    /** One batched pass over running sequences: every row gets its own answers, and every
        promise survives what it wrote. */
    method Forward(feeds: seq<Feed>, width: nat) returns (outs: seq<seq<Hidden>>)
      requires Mid([], 0, Live, Admitted) && Feeding(feeds, width)
      modifies cache`store
      ensures Mid([], 0, Live, Admitted) && |outs| == |feeds|
      ensures forall i :: 0 <= i < |feeds| ==> feeds[i].id in seqs
      ensures forall i :: 0 <= i < |feeds| ==> Answered(Here(), seqs[feeds[i].id], feeds[i], outs[i])
    {
      hide RowOk, WorldOk, WaitOk, Promised, Seated, Balanced, EntriesOk, Distinct, Counted, FinOk, FeedOk,
           Answered, Separate;
      ghost var st := Snapshot([], 0, Live, Admitted);
      var rows := RowsOf(feeds, width);
      var xs := seq(|feeds|, i requires 0 <= i < |feeds| => Embedded(net, feeds[i].ver, feeds[i].base));
      var store;
      store, outs := ModelForward(net, cache.store, rows, xs, width);
      assert PassRan(st.w, seqs, store, feeds, width, rows, outs);
      ForwardState(st, feeds, width, store, rows, outs);
      forall i | 0 <= i < |feeds| ensures Answered(st.w.(store := store), seqs[feeds[i].id], feeds[i], outs[i]) {
        AnsweredRow(st, feeds, width, store, rows, outs, i);
      }
      cache.store := store;
      assert Snapshot([], 0, Live, Admitted) == st.(w := st.w.(store := store));
    }

    predicate PlaceFits(p: Place, width: nat)
      reads this, cache
    {
      cache.blockSize > 0 && p.slot < |cache.slotBlocks| && p.base + width <= |cache.slotBlocks[p.slot]| * cache.blockSize
    }

    /** Running member `id` becomes `q`, which keeps a running sequence's promise. */
    method SetSeq(id: nat, q: Sequence)
      requires Mid([], 0, Live, Admitted) && id in running && id in seqs && q.slot == seqs[id].slot
      requires RowOk(Here(), Live, q) && (gate.Some? ==> Calm(gate.value, q))
      requires q.Req() == seqs[id].Req() && q.preempts == seqs[id].preempts
      modifies this`seqs
      ensures Mid([], 0, Live, Admitted) && seqs == old(seqs)[id := q]
    {
      hide RowOk, StateOk, PagedKVCache.Valid, Snug, Ample;
      SnugRow(bounds, |running|, cache.slotBlocks, |cache.prefixBlockRefs|, seqs, id, q);
      ghost var st := Snapshot([], 0, Live, Admitted);
      ListedHere();
      SetRow(st, id, q);
      seqs := seqs[id := q];
      assert Snapshot([], 0, Live, Admitted) == st.(seqs := seqs);
    }

    lemma CalmHere(id: nat)
      requires Mid([], 0, Live, Admitted) && id in seqs
      ensures gate.Some? ==> Calm(gate.value, seqs[id])
    {
      hide StateOk, PagedKVCache.Valid;
    }

    lemma RunningHere(id: nat)
      requires Mid([], 0, Live, Admitted) && id in running
      ensures id in seqs && seqs[id].slot.Some? && seqs[id].slot.value < cache.numSlots
      ensures seqs[id].slot.value !in cache.freeSlots && cache.numSlots == |cache.slotBlocks| && cache.blockSize > 0
      ensures seqs[id].prompt != [] && seqs[id].status == Running && NoDup(running)
      ensures id !in waiting && id < nextId && seqs[id].fold <= |seqs[id].outputs|
    {
      hide StateOk, RowOk, Balanced, Snug;
      Known(Snapshot([], 0, Live, Admitted));
      RunningSeat(Snapshot([], 0, Live, Admitted), id);
    }

    /** A plain or verify pass over an unfinished sequence stays within what is provisioned. */
    lemma SpanHere(id: nat, k: nat)
      requires Mid([], 0, Live, Admitted) && id in running && id in seqs && !seqs[id].IsFinished(eos) && k <= specK
      ensures WithinSpan(seqs[id].length + 1) && WithinSpan(seqs[id].length + 1 + (k + 1))
    {
      hide StateOk, RowOk, Balanced, WithinCap, Ample, FitsSpan, OnTrack, FinishReason, Excused;
      if bounds.Some? {
        RunningSeat(Snapshot([], 0, Live, Admitted), id);
        SteadyFed(seqs[id], bounds.value.span, eos);
      }
    }

    /** Feed each of `ids` its last token. None is the exhausted block pool. */
    method PlainPass(ids: seq<nat>) returns (outs: Option<seq<seq<Hidden>>>)
      requires Mid([], 0, Live, Admitted) && NoDup(ids)
      requires forall id :: id in ids ==> id in running && id in seqs && !seqs[id].IsFinished(eos)
      modifies cache
      ensures Mid([], 0, Live, Admitted) && cache.prefixBlockRefs == old(cache.prefixBlockRefs) && cache.trie == old(cache.trie)
      ensures outs.None? ==> RowShort(ids, 1) && bounds.None?
      ensures outs.Some? ==> |outs.value| == |ids|
      ensures forall i :: 0 <= i < |ids| ==> ids[i] in seqs && seqs[ids[i]].prompt != []
      ensures outs.Some? ==> forall i :: 0 <= i < |ids| ==>
        Answered(Here(), seqs[ids[i]], PlainFeed(ids[i], seqs[ids[i]]), outs.value[i])
    {
      hide StateOk, PagedKVCache.Valid, Answered, Promised, Seated, WorldOk, FinishReason, Sized, Demand, Fitted,
           RowShort, SlotShort, Needed;
      forall i | 0 <= i < |ids|
        ensures ids[i] in running && ids[i] in seqs && seqs[ids[i]].slot.Some? && seqs[ids[i]].slot.value < cache.numSlots
        ensures seqs[ids[i]].slot.value !in cache.freeSlots && seqs[ids[i]].prompt != []
        ensures WithinSpan(seqs[ids[i]].length + 1)
      {
        assert ids[i] in ids;
        RunningHere(ids[i]);
        SpanHere(ids[i], 0);
      }
      var slots := seq(|ids|, i requires 0 <= i < |ids| && ids[i] in seqs && seqs[ids[i]].slot.Some?
                              reads this => seqs[ids[i]].slot.value);
      var lengths := seq(|ids|, i requires 0 <= i < |ids| && ids[i] in seqs reads this => seqs[ids[i]].length + 1);
      var ok := Grow([], 0, Live, Admitted, slots, lengths);
      if !ok {
        SomeRowShort(ids, slots, lengths, 1);
        return None;
      }
      var feeds := seq(|ids|, i requires 0 <= i < |ids| && ids[i] in seqs && seqs[ids[i]].prompt != []
                              reads this => PlainFeed(ids[i], seqs[ids[i]]));
      forall i | 0 <= i < |ids| ensures FeedFits(Here(), seqs[ids[i]], feeds[i], 1) {
        RunningHere(ids[i]);
        assert lengths[i] <= |cache.slotBlocks[slots[i]]| * cache.blockSize;
      }
      ListedHere();
      var r := Forward(feeds, 1);
      outs := Some(r);
    }

    lemma ListedHere()
      requires Mid([], 0, Live, Admitted)
      ensures Listed(Snapshot([], 0, Live, Admitted))
    {
      hide RowOk, WorldOk, Promised, Seated, PagedKVCache.Valid;
    }

    /** Row `id` takes the token its pass answered. */
    method DecodeOne(id: nat, outs: seq<Hidden>)
      requires Mid([], 0, Live, Admitted) && id in running && id in seqs && seqs[id].prompt != []
      requires !seqs[id].IsFinished(eos) && Answered(Here(), seqs[id], PlainFeed(id, seqs[id]), outs)
      requires gate != Some(true)
      modifies this`seqs
      ensures Mid([], 0, Live, Admitted) && id in seqs && seqs == old(seqs)[id := seqs[id]]
      ensures Decoded(net, old(seqs)[id], seqs[id]) && Gained(net, old(seqs)[id], seqs[id], Decoding)
    {
      hide RowOk, Mid, FinishReason, RowResult, FeedOk, Next, Gained;
      var q := seqs[id];
      PlainRow(Here(), q, PlainFeed(id, q), outs);
      RunningHere(id);
      CalmHere(id);
      DecodedGains(net, q, net.pick(outs[0]));
      SetSeq(id, DecodeStep(q, net.pick(outs[0])));
    }

    /** A plain decode step over every running sequence. A carry left over from speculation is
        not cleared here, as the source does not clear it. */
    method DecodePlain() returns (ok: bool)
      requires Inv()
      requires gate != Some(true)
      modifies this`seqs, cache
      ensures cache.Valid() && cache.prefixBlockRefs == old(cache.prefixBlockRefs) && cache.trie == old(cache.trie)
      ensures !ok ==> RowShort(running, 1) && bounds.None?
      ensures ok ==> Mid([], 0, Live, Admitted) && Stepped(net, old(seqs), seqs, running, |running|, Decoding)
      ensures ok ==> forall id :: id in running ==> id in old(seqs) && id in seqs && Decoded(net, old(seqs)[id], seqs[id])
    {
      hide StateOk, Snapshot, PagedKVCache.Valid, Answered, RowOk, FinishReason, Gained, Decoded, Mid, Stepped, RowShort;
      NoDupHere();
      KnownHere([]);
      assert forall i :: 0 <= i < |running| ==> running[i] in running;
      SteppedNone(net, seqs, running, Decoding);
      var outs := PlainPass(running);
      ValidHere();
      if outs.None? { return false; }
      ghost var w := Here();
      for i := 0 to |running|
        invariant Mid([], 0, Live, Admitted) && Stepped(net, old(seqs), seqs, running, i, Decoding) && Here() == w
        invariant cache.prefixBlockRefs == old(cache.prefixBlockRefs) && cache.trie == old(cache.trie)
        invariant DecodedTo(net, old(seqs), seqs, running, i)
      {
        SteppedRest(net, old(seqs), seqs, running, i, Decoding);
        ghost var was := seqs;
        DecodeOne(running[i], outs.value[i]);
        SteppedNext(net, old(seqs), was, seqs, running, i, Decoding);
        DecodedNext(net, old(seqs), was, seqs, running, i);
      }
      ValidHere();
      ok := true;
    }

    lemma ValidHere()
      requires Mid([], 0, Live, Admitted)
      ensures cache.Valid()
    {
      hide StateOk, PagedKVCache.Valid;
    }

    /** With no block free every block has an owner. */
    lemma UnfreeHere()
      requires Mid([], 0, Live, Admitted) && cache.freeBlocks == []
      ensures Dry(cache.slotBlocks, cache.trie, cache.numBlocks)
    {
      hide StateOk, Sized, NoDup, Counted, Distinct, EntriesOk;
      NothingFree(cache.blockRefcount, cache.numBlocks, cache.slotBlocks, cache.trie);
    }

    lemma NoDupHere()
      requires Mid([], 0, Live, Admitted)
      ensures NoDup(running)
    {
      hide StateOk, PagedKVCache.Valid;
      Known(Snapshot([], 0, Live, Admitted));
    }

    /** The running rows without a carry. */
    method NeedBase() returns (need: seq<nat>)
      requires Mid([], 0, Live, Admitted)
      ensures NoDup(need) && (forall x :: x in running ==> x in seqs)
      ensures forall x :: x in need <==> x in running && seqs[x].carry.None?
    {
      hide StateOk, Snapshot, PagedKVCache.Valid, RowOk, FinishReason;
      need := [];
      KnownHere([]);
      NoDupHere();
      for j := 0 to |running|
        invariant forall x :: x in need <==> x in running[..j] && seqs[x].carry.None?
        invariant NoDup(need)
      {
        assert running[j] in running && running[..j + 1] == running[..j] + [running[j]];
        if seqs[running[j]].carry.None? {
          NoDupAppend(need, running[j]);
          need := need + [running[j]];
        }
      }
      assert running[..|running|] == running;
    }

    /** The first pass of a speculative step: rows without a carry write their last token's K/V
        and carry the greedy token after it. */
    method Bootstrap() returns (ok: bool)
      requires Inv()
      requires gate != Some(false)
      modifies this`seqs, cache
      ensures cache.Valid() && cache.prefixBlockRefs == old(cache.prefixBlockRefs) && cache.trie == old(cache.trie)
      ensures !ok ==> RowShort(running, 1) && bounds.None?
      ensures ok ==> Inv() && seqs.Keys == old(seqs).Keys
      ensures ok ==> forall id :: id in seqs ==>
        if id in running then Booted(net, old(seqs)[id], seqs[id]) else seqs[id] == old(seqs)[id]
    {
      hide StateOk, Snapshot, PagedKVCache.Valid, Answered, RowOk, FinishReason, Mid, Booted, RowShort;
      ValidHere();
      var need := NeedBase();
      KnownHere([]);
      CarriersBooted(net, seqs, running);
      if need == [] { return true; }
      var outs := PlainPass(need);
      ValidHere();
      if outs.None? {
        ShortForMore(need, running, 1, 1);
        return false;
      }
      for i := 0 to |need|
        invariant Mid([], 0, Live, Admitted) && seqs.Keys == old(seqs).Keys
        invariant cache.prefixBlockRefs == old(cache.prefixBlockRefs) && cache.trie == old(cache.trie)
        invariant forall j :: i <= j < |need| ==> seqs[need[j]] == old(seqs)[need[j]] && seqs[need[j]].prompt != []
        invariant forall j :: i <= j < |need| ==>
          Answered(Here(), seqs[need[j]], PlainFeed(need[j], seqs[need[j]]), outs.value[j])
        invariant forall j :: 0 <= j < i ==> Booted(net, old(seqs)[need[j]], seqs[need[j]])
        invariant forall id :: id in seqs && id !in need ==> seqs[id] == old(seqs)[id]
      {
        assert need[i] in need;
        BootOne(need[i], outs.value[i]);
      }
      BootedUnfinished(old(seqs));
      ValidHere();
      ok := true;
    }

    lemma BootedUnfinished(was: Table)
      requires seqs.Keys == was.Keys
      requires forall id :: id in running ==> id in was && !was[id].IsFinished(eos) && Booted(net, was[id], seqs[id])
      ensures forall id :: id in running ==> !seqs[id].IsFinished(eos)
    {
      hide FinishReason;
    }

    method BootOne(id: nat, outs: seq<Hidden>)
      requires Mid([], 0, Live, Admitted) && id in running && id in seqs && seqs[id].prompt != []
      requires seqs[id].carry.None? && Answered(Here(), seqs[id], PlainFeed(id, seqs[id]), outs)
      requires gate != Some(false)
      modifies this`seqs
      ensures Mid([], 0, Live, Admitted) && id in seqs && seqs == old(seqs)[id := seqs[id]]
      ensures Booted(net, old(seqs)[id], seqs[id])
    {
      hide RowOk, Mid, FinishReason, RowResult, FeedOk, Next;
      var q := seqs[id];
      PlainRow(Here(), q, PlainFeed(id, q), outs);
      RunningHere(id);
      CalmHere(id);
      SetSeq(id, q.(carry := Some(net.pick(outs[0]))));
    }

    /** Nothing was drafted: the carried tokens are committed as a plain step would. */
    method NoDraft()
      requires Inv() && AllCarry(seqs, running)
      requires gate != Some(false)
      modifies this`seqs
      ensures Mid([], 0, Live, Admitted) && Stepped(net, old(seqs), seqs, running, |running|, Speculating)
      ensures forall id :: id in running ==> id in old(seqs) && seqs[id] == NoDraftStep(old(seqs)[id])
    {
      hide Mid, FinishReason, Gained, NoDraftStep, Stepped;
      NoDupHere();
      KnownHere([]);
      SteppedNone(net, seqs, running, Speculating);
      for i := 0 to |running|
        invariant Mid([], 0, Live, Admitted) && Stepped(net, old(seqs), seqs, running, i, Speculating)
        invariant forall j :: 0 <= j < i ==> running[j] in seqs && seqs[running[j]] == NoDraftStep(old(seqs)[running[j]])
      {
        assert running[i] in running;
        SteppedRest(net, old(seqs), seqs, running, i, Speculating);
        ghost var was := seqs;
        NoDraftOne(running[i]);
        SteppedNext(net, old(seqs), was, seqs, running, i, Speculating);
      }
    }

    method NoDraftOne(id: nat)
      requires Mid([], 0, Live, Admitted) && id in running && id in seqs && seqs[id].carry.Some?
      requires !seqs[id].IsFinished(eos)
      requires gate != Some(false)
      modifies this`seqs
      ensures Mid([], 0, Live, Admitted) && seqs == old(seqs)[id := NoDraftStep(old(seqs)[id])]
      ensures Gained(net, old(seqs)[id], seqs[id], Speculating)
    {
      hide StateOk, PagedKVCache.Valid, Gained, Exclusive, Holds, OnTrack, FinishReason, Excused, Sized;
      RunningHere(id);
      RowHere(id);
      CalmHere(id);
      NoDraftRow(Here(), seqs[id]);
      NoDraftGains(net, eos, seqs[id]);
      SetSeq(id, NoDraftStep(seqs[id]));
    }

    lemma RowHere(id: nat)
      requires Mid([], 0, Live, Admitted) && id in running && id in seqs
      ensures RowOk(Here(), Live, seqs[id])
    {
      hide RowOk, WorldOk, Seated, PagedKVCache.Valid;
    }

    /** Verify the drafts in one pass of `k + 1` tokens a row. */
    method VerifyPass(drafts: seq<seq<Token>>, k: nat) returns (outs: Option<seq<seq<Hidden>>>)
      requires Inv() && |drafts| == |running| && k <= specK
      requires forall i :: 0 <= i < |drafts| ==> |drafts[i]| <= k
      requires forall i :: 0 <= i < |running| ==> running[i] in seqs && seqs[running[i]].carry.Some?
      modifies cache
      ensures Mid([], 0, Live, Admitted) && cache.prefixBlockRefs == old(cache.prefixBlockRefs) && cache.trie == old(cache.trie)
      ensures outs.None? ==> RowShort(running, k + 2) && bounds.None?
      ensures outs.Some? ==> |outs.value| == |running|
      ensures outs.Some? ==> forall i :: 0 <= i < |running| ==>
        Answered(Here(), seqs[running[i]], VerifyFeed(running[i], seqs[running[i]], drafts[i], k), outs.value[i])
    {
      hide StateOk, PagedKVCache.Valid, Answered, Promised, Seated, WorldOk, FinishReason, Sized, Demand, Fitted,
           RowShort, SlotShort, Needed;
      NoDupHere();
      forall i | 0 <= i < |running|
        ensures seqs[running[i]].slot.Some? && seqs[running[i]].slot.value < cache.numSlots
        ensures seqs[running[i]].slot.value !in cache.freeSlots && seqs[running[i]].prompt != []
        ensures WithinSpan(seqs[running[i]].length + 1 + (k + 1))
      {
        assert running[i] in running;
        RunningHere(running[i]);
        SpanHere(running[i], k);
      }
      var slots := seq(|running|, i requires 0 <= i < |running| && running[i] in seqs && seqs[running[i]].slot.Some?
                                  reads this => seqs[running[i]].slot.value);
      var lengths := seq(|running|, i requires 0 <= i < |running| && running[i] in seqs
                                    reads this => seqs[running[i]].length + 1 + (k + 1));
      var ok := Grow([], 0, Live, Admitted, slots, lengths);
      if !ok {
        SomeRowShort(running, slots, lengths, k + 2);
        return None;
      }
      var feeds := seq(|running|, i requires 0 <= i < |running| && i < |drafts| && |drafts[i]| <= k && running[i] in seqs
                                             && seqs[running[i]].carry.Some?
                                  reads this => VerifyFeed(running[i], seqs[running[i]], drafts[i], k));
      forall i | 0 <= i < |running| ensures FeedFits(Here(), seqs[running[i]], feeds[i], k + 1) {
        assert running[i] in running;
        RunningHere(running[i]);
        assert lengths[i] <= |cache.slotBlocks[slots[i]]| * cache.blockSize;
      }
      ListedHere();
      var r := Forward(feeds, k + 1);
      outs := Some(r);
    }

    /** Accept one verified row. */
    method AcceptOne(id: nat, draft: seq<Token>, k: nat, outs: seq<Hidden>)
      requires Mid([], 0, Live, Admitted) && id in running && id in seqs && seqs[id].carry.Some? && |draft| <= k
      requires !seqs[id].IsFinished(eos) && Answered(Here(), seqs[id], VerifyFeed(id, seqs[id], draft, k), outs)
      requires gate != Some(false)
      modifies this`seqs
      ensures Mid([], 0, Live, Admitted) && id in seqs && seqs == old(seqs)[id := seqs[id]]
      ensures Gained(net, old(seqs)[id], seqs[id], Speculating) && Verified(net, eos, old(seqs)[id], seqs[id], draft, k)
    {
      hide RowOk, Mid, FinishReason, FeedOk, Next, Gained, Accepted, Verified;
      var q := seqs[id];
      var f := VerifyFeed(id, q, draft, k);
      var truth := seq(k + 1, t requires 0 <= t < |outs| => net.pick(outs[t]));
      var r;
      ghost var n, m;
      r, n, m := AcceptRow(q, eos, f.ver, truth, |draft|);
      VerifiedRow(Here(), q, f, outs, truth, |draft|, r, n, m);
      GainedSlot(net, q, r, Speculating);
      CalmHere(id);
      AcceptedCalm(q, eos, f.ver, truth, |draft|, r, n, m);
      AcceptedVerifies(Here(), q, id, draft, k, outs, truth, r, n, m);
      SetSeq(id, r);
    }

    /** The rows' drafts are verified together and accepted one by one. */
    method Verify(drafts: seq<seq<Token>>, k: nat) returns (ok: bool)
      requires Inv() && |drafts| == |running| && AllCarry(seqs, running)
      requires k <= specK && forall i :: 0 <= i < |drafts| ==> |drafts[i]| <= k
      requires gate != Some(false)
      modifies this`seqs, cache
      ensures cache.Valid() && cache.prefixBlockRefs == old(cache.prefixBlockRefs) && cache.trie == old(cache.trie)
      ensures !ok ==> RowShort(running, k + 2) && bounds.None?
      ensures ok ==> Mid([], 0, Live, Admitted) && Stepped(net, old(seqs), seqs, running, |running|, Speculating)
      ensures ok ==> forall i :: 0 <= i < |running| ==>
        running[i] in old(seqs) && running[i] in seqs
        && Verified(net, eos, old(seqs)[running[i]], seqs[running[i]], drafts[i], k)
    {
      hide StateOk, Snapshot, PagedKVCache.Valid, Answered, RowOk, FinishReason, Gained, Verified, Mid, Stepped, RowShort;
      NoDupHere();
      KnownHere([]);
      assert forall i :: 0 <= i < |running| ==> running[i] in running;
      SteppedNone(net, seqs, running, Speculating);
      var outs := VerifyPass(drafts, k);
      ValidHere();
      if outs.None? { return false; }
      ghost var w := Here();
      for i := 0 to |running|
        invariant Mid([], 0, Live, Admitted) && Stepped(net, old(seqs), seqs, running, i, Speculating) && Here() == w
        invariant cache.prefixBlockRefs == old(cache.prefixBlockRefs) && cache.trie == old(cache.trie)
        invariant VerifiedTo(net, eos, old(seqs), seqs, running, drafts, k, i)
      {
        SteppedRest(net, old(seqs), seqs, running, i, Speculating);
        ghost var was := seqs;
        AcceptOne(running[i], drafts[i], k, outs.value[i]);
        SteppedNext(net, old(seqs), was, seqs, running, i, Speculating);
        VerifiedNext(net, eos, old(seqs), was, seqs, running, drafts, k, i);
      }
      ValidHere();
      ok := true;
    }

    /** One speculative step over the rows' `drafts`: bootstrap, and either commit the carries or
        verify. The drafts are arbitrary; they only respect the draft budget. */
    method DecodeSpec(drafts: seq<seq<Token>>) returns (ok: bool)
      requires Inv()
      requires gate != Some(false)
      requires |drafts| == |running| && forall i :: 0 <= i < |drafts| ==> |drafts[i]| <= specK
      modifies this`seqs, cache
      ensures cache.Valid() && cache.prefixBlockRefs == old(cache.prefixBlockRefs) && cache.trie == old(cache.trie)
      ensures !ok ==> RowShort(running, SpecWidth()) && bounds.None?
      ensures ok ==> Mid([], 0, Live, Admitted) && Stepped(net, old(seqs), seqs, running, |running|, Speculating)
      ensures ok ==> exists mid, k: nat :: Drafted(net, eos, old(seqs), mid, seqs, running, drafts, k) && k <= specK
    {
      hide StateOk, Snapshot, PagedKVCache.Valid, RowOk, FinishReason, Gained, Booted, Verified, NoDraftStep, Sized, Mid,
           RowShort, Resolved, Stepped;
      KnownHere([]);
      ok := Bootstrap();
      if !ok {
        ShortForMore(running, running, 1, SpecWidth());
        return;
      }
      ghost var mid, k := seqs, 0;
      BootedCarry(old(seqs));
      ok, k := Resolve(drafts);
      if ok {
        BootedStepped(net, old(seqs), mid, seqs, running);
        BootedRows(net, old(seqs), mid, running);
        assert Drafted(net, eos, old(seqs), mid, seqs, running, drafts, k);
      }
    }

    /** The second half: every row carries a token. With no draft at all the carries are committed,
        otherwise all rows are verified in one pass as wide as the longest draft, or a little wider. */
    method Resolve(drafts: seq<seq<Token>>) returns (ok: bool, ghost k: nat)
      requires Inv() && AllCarry(seqs, running)
      requires gate != Some(false)
      requires |drafts| == |running| && forall i :: 0 <= i < |drafts| ==> |drafts[i]| <= specK
      modifies this`seqs, cache
      ensures cache.Valid() && cache.prefixBlockRefs == old(cache.prefixBlockRefs) && cache.trie == old(cache.trie)
      ensures !ok ==> RowShort(running, SpecWidth()) && bounds.None?
      ensures ok ==> Mid([], 0, Live, Admitted) && Stepped(net, old(seqs), seqs, running, |running|, Speculating)
      ensures ok ==> k <= specK && Resolved(net, eos, old(seqs), seqs, running, drafts, k)
    {
      hide StateOk, Snapshot, PagedKVCache.Valid, RowOk, FinishReason, Gained, Verified, NoDraftStep, Sized, Mid, RowShort,
           Stepped;
      KnownHere([]);
      ValidHere();
      assert forall i :: 0 <= i < |running| ==> running[i] in running;
      var longest := Longest(drafts);
      var width := longest;
      k := width;
      if longest == 0 {
        NoDraft();
        ok := true;
      } else {
        var bucketed: bool := *;
        if bucketed { width := DraftBucket(longest, specK); }
        k := width;
        ok := Verify(drafts, width);
        if !ok {
          ShortForMore(running, running, width + 2, SpecWidth());
          return;
        }
      }
      KnownHere([]);
    }

    lemma BootedCarry(was: Table)
      requires Inv() && seqs.Keys == was.Keys && forall id :: id in running ==> id in was && Booted(net, was[id], seqs[id])
      ensures AllCarry(seqs, running)
    {
      hide StateOk, PagedKVCache.Valid, FinishReason;
    }

    /** A decode step: speculative if the gate allows it. */
    method Decode() returns (ok: bool, ghost kind: Kind)
      requires Inv()
      modifies this`seqs, cache
      ensures cache.Valid() && cache.prefixBlockRefs == old(cache.prefixBlockRefs) && cache.trie == old(cache.trie)
      ensures !ok ==> RowShort(running, if kind == Speculating then SpecWidth() else 1) && bounds.None?
      ensures ok ==> Mid([], 0, Live, Admitted) && Stepped(net, old(seqs), seqs, running, |running|, kind)
      ensures kind == Speculating ==> gate != Some(false)
      ensures kind == Decoding ==> gate != Some(true)
      ensures kind != Prefilling
    {
      hide StateOk, Snapshot, PagedKVCache.Valid, FinishReason, Stepped, Decoded, RowShort;
      var allowed: bool := *;
      if gate.Some? { allowed := gate.value; }
      kind := if allowed then Speculating else Decoding;
      if allowed {
        var drafts := AnyDrafts(|running|, specK);
        ok := DecodeSpec(drafts);
      } else {
        ok := DecodePlain();
      }
    }

    // ---- steps ---------------------------------------------------------------------

    /** A prefill step: every member of the batch gets its first token, its prompt is stored,
        and it joins the running list unless it is done. */
    method PrefillStep(batch: seq<nat>) returns (ok: bool)
      requires Mid(batch, 0, Live, Admitted) && batch != [] && |running| + |batch| <= maxNumSeqs
      modifies this`running, this`seqs, cache
      ensures cache.Valid()
      ensures !ok ==> PromptShort(batch) && bounds.None?
      ensures ok ==> Inv() && AllEvolve(old(seqs), seqs) && Work(seqs, nextId) < Work(old(seqs), nextId)
      ensures ok ==> AllWorked(net, old(seqs), seqs, Prefilling)
      ensures old(cache.WithinBudget()) ==> ok ==> cache.WithinBudget()
      ensures ok <==> old(Coverable(batch))
      ensures ok ==> exists mid :: FilledSince(net, old(seqs), mid, batch, |batch|) && Retired(eos, mid, seqs)
      ensures ok ==> Sifted(eos, seqs, old(running) + batch, running)
      ensures ok && old(cache.NoPressure(WholeBlocks(seqs, batch, cache.blockSize))) ==>
        PromptsStored(cache.trie, old(seqs), batch, cache.blockSize)
      ensures ok ==> BatchStored(old(cache.trie), cache.trie, old(seqs), batch, cache.blockSize, cache.maxPrefixEntries,
                                 cache.maxPrefixBlocks)
    {
      hide StateOk, Snapshot, PagedKVCache.Valid, FinishReason, Evolves, FilledSince, Left, Worked, Sized,
           WholeBlocks, PromptsStored, Coverable, Retired, Sifted, BatchStored, PromptShort;
      BatchHere(batch, 0, Live, Admitted, 0);
      ok := PrefillBatch(batch);
      if !ok { return; }
      ghost var mid := seqs;
      FilledPrompts(net, old(seqs), mid, batch, cache.trie, cache.blockSize);
      StoreBatch(batch);
      Postprocess(batch);
      FilledPrompts(net, old(seqs), mid, batch, cache.trie, cache.blockSize);
      BatchStoredSame(old(cache.trie), cache.trie, old(seqs), mid, batch, cache.blockSize, cache.maxPrefixEntries,
                      cache.maxPrefixBlocks);
      FilledEvolves(net, old(seqs), mid, batch, |batch|);
      RetiredEvolves(eos, mid, seqs);
      RetiredWorks(net, eos, old(seqs), mid, seqs, Prefilling);
      EvolveStep(old(seqs), mid, seqs);
      FilledGain(net, old(seqs), mid, batch, 0);
      EndedHere(batch[0]);
      LeftDrops(old(seqs)[batch[0]], old(seqs)[batch[0]], mid[batch[0]], seqs[batch[0]], eos);
      WorkDrops(old(seqs), seqs, nextId, batch[0]);
    }

    /** A decode step over the running sequences. */
    method DecodeStepAll() returns (ok: bool, ghost kind: Kind)
      requires Inv() && running != []
      modifies this`running, this`seqs, cache
      ensures cache.Valid()
      ensures !ok ==> cache.freeBlocks == [] && Starved(kind) && bounds.None?
      ensures ok ==> Inv() && AllEvolve(old(seqs), seqs) && Work(seqs, nextId) < Work(old(seqs), nextId)
      ensures ok ==> AllWorked(net, old(seqs), seqs, kind)
      ensures kind == Speculating ==> gate != Some(false)
      ensures kind == Decoding ==> gate != Some(true)
      ensures kind != Prefilling
      ensures ok ==> Sifted(eos, seqs, old(running), running) && cache.trie == old(cache.trie)
      ensures old(cache.WithinBudget()) ==> ok ==> cache.WithinBudget()
    {
      hide StateOk, Snapshot, PagedKVCache.Valid, FinishReason, Evolves, Stepped, Left, Worked, Sized, Sifted;
      var id := running[0];
      assert id in running;
      RunningHere(id);
      ok, kind := Decode();
      if !ok { return; }
      ghost var mid := seqs;
      PhaseHere([], 0, Live, Admitted, Live, Filled);
      assert running + [] == running;
      Postprocess([]);
      SteppedEvolves(net, old(seqs), mid, old(running), |old(running)|, kind);
      RetiredEvolves(eos, mid, seqs);
      RetiredWorks(net, eos, old(seqs), mid, seqs, kind);
      EvolveStep(old(seqs), mid, seqs);
      SteppedGain(net, old(seqs), mid, old(running), 0, kind);
      EndedHere(id);
      LeftDrops(old(seqs)[id], old(seqs)[id], mid[id], seqs[id], eos);
      WorkDrops(old(seqs), seqs, nextId, id);
    }

    /** One engine step. It preempts only when it starts with a dry pool, it fails only when the
        pool runs dry in the middle of a batch, and a provisioned engine does neither. */
    method Step() returns (ok: bool, ghost moved: seq<nat>, ghost kind: Kind)
      requires Inv()
      modifies this`waiting, this`running, this`seqs, cache
      ensures cache.Valid()
      ensures !ok ==> cache.freeBlocks == [] && Starved(kind)
      ensures bounds.Some? ==> ok && moved == []
      ensures moved != [] <==> old(Pressed())
      ensures exists left :: Evicted(old(seqs), old(running), moved, left)
      ensures ok ==> Shifted(eos, old(seqs), seqs, old(running), old(waiting), moved, running, waiting)
      ensures ok && kind != Prefilling ==> cache.trie == old(cache.trie)
      ensures NoneTooMany(old(seqs), old(cache.slotBlocks), old(cache.trie), moved, cache.numBlocks)
      ensures NoDup(moved) && forall id :: id in moved ==> id in old(running)
      ensures ok ==> Inv() && AllEvolve(old(seqs), seqs)
      ensures ok ==> StepOf(net, old(seqs), seqs, moved, kind) && KindAllowed(gate, kind)
      ensures ok && old(Roomy()) ==> Roomy()
      ensures ok && old(Roomy() && HasWork()) ==> Work(seqs, nextId) < Work(old(seqs), nextId)
    {
      hide Mid, FinishReason, AllEvolve, Left, AllRescheduled, AllWorked, StepOf, NoneTooMany, Evicted, Sifted, Shifted,
           Starved;
      var batch, isPrefill;
      batch, isPrefill, moved := Schedule();
      ghost var was, left, joined := seqs, running, if isPrefill then batch else [];
      WorkFalls(old(seqs), was, nextId);
      AllWorkedSame(net, was, Prefilling);
      kind := Prefilling;
      if batch == [] {
        StepComposed(net, old(seqs), was, was, moved, Prefilling);
        ValidHere();
        SiftedNone(eos, seqs);
        assert left + [] == running == [];
        StepShifts(eos, old(seqs), seqs, old(running), old(waiting), moved, left, [], running, waiting);
        return true, moved, Prefilling;
      }
      ok, kind := RunBatch(batch, isPrefill);
      if ok {
        EvolveStep(old(seqs), was, seqs);
        StepComposed(net, old(seqs), was, seqs, moved, kind);
        StepShifts(eos, old(seqs), seqs, old(running), old(waiting), moved, left, joined, running, waiting);
      }
    }

    /** Run what the scheduler chose: a prefill of the batch or a decode step of all who run. */
    method RunBatch(batch: seq<nat>, isPrefill: bool) returns (ok: bool, ghost kind: Kind)
      requires batch != []
      requires isPrefill ==> Mid(batch, 0, Live, Admitted) && |running| + |batch| <= maxNumSeqs
      requires !isPrefill ==> Inv() && running == batch
      modifies this`running, this`seqs, cache
      ensures cache.Valid() && (!ok ==> cache.freeBlocks == [] && Starved(kind) && bounds.None?)
      ensures ok ==> Inv() && AllEvolve(old(seqs), seqs) && Work(seqs, nextId) < Work(old(seqs), nextId)
      ensures ok ==> AllWorked(net, old(seqs), seqs, kind) && KindAllowed(gate, kind)
      ensures ok ==> Sifted(eos, seqs, old(running) + if isPrefill then batch else [], running)
      ensures (isPrefill <==> kind == Prefilling) && (ok && !isPrefill ==> cache.trie == old(cache.trie))
      ensures old(cache.WithinBudget()) ==> ok ==> cache.WithinBudget()
    {
      hide Inv, Mid, AllEvolve, AllWorked, Work, PagedKVCache.Valid, PagedKVCache.WithinBudget, Sifted;
      assert running + [] == running;
      kind := Prefilling;
      if isPrefill { ok := PrefillStep(batch); } else { ok, kind := DecodeStepAll(); }
    }

    /** A sequence that has left the waiting list and is not running any more is finished. */
    lemma EndedHere(id: nat)
      requires Inv() && id in seqs && id !in waiting
      ensures seqs[id].status == Finished || !seqs[id].IsFinished(eos)
    {
      hide RowOk, WorldOk, Seated, PagedKVCache.Valid, FinishReason;
    }

    /** Drop the record of a request the scheduler no longer holds. */
    method Forget(id: nat)
      requires Inv() && id !in waiting && id !in running
      modifies this`seqs
      ensures Inv() && seqs == old(seqs) - {id}
    {
      hide StateOk, PagedKVCache.Valid, FinishReason, Snug, Ample;
      ghost var st := Snapshot([], 0, Live, Admitted);
      ListedHere();
      DropState(st, id);
      SnugDropped(bounds, |running|, cache.slotBlocks, |cache.prefixBlockRefs|, seqs, id);
      seqs := seqs - {id};
      assert Snapshot([], 0, Live, Admitted) == st.(seqs := seqs);
    }

    /** Withdraw a request wherever it is. False for one that is unknown or already over, and
        then nothing changes. */
    method Cancel(id: nat) returns (found: bool)
      requires Inv()
      modifies this`waiting, this`running, this`seqs, cache
      ensures Inv() && found == (id in old(waiting) || id in old(running))
      ensures !found ==> waiting == old(waiting) && running == old(running) && seqs == old(seqs)
      ensures !found ==> cache.slotBlocks == old(cache.slotBlocks) && cache.freeSlots == old(cache.freeSlots)
      ensures found ==> seqs == old(seqs) - {id} && id !in waiting && id !in running
      ensures forall x :: x != id ==> (x in waiting <==> x in old(waiting)) && (x in running <==> x in old(running))
      ensures SameOrder(old(waiting), waiting) && SameOrder(old(running), running)
      ensures cache.prefixBlockRefs == old(cache.prefixBlockRefs) && cache.trie == old(cache.trie)
    {
      hide StateOk, PagedKVCache.Valid, FinishReason, SameOrder;
      KnownHere([]);
      ListedHere();
      NoDupHere();
      OrderKept(waiting);
      OrderKept(running);
      if id !in seqs { return false; }
      for i := 0 to |waiting|
        invariant id !in waiting[..i] && Inv()
        invariant waiting == old(waiting) && running == old(running) && seqs == old(seqs)
        invariant cache.slotBlocks == old(cache.slotBlocks) && cache.freeSlots == old(cache.freeSlots)
        invariant cache.prefixBlockRefs == old(cache.prefixBlockRefs) && cache.trie == old(cache.trie)
      {
        if waiting[i] == id {
          OrderWithout(waiting, i);
          CancelWaiting(i);
          return true;
        }
        assert waiting[..i + 1] == waiting[..i] + [waiting[i]];
      }
      assert waiting[..|waiting|] == waiting;
      for i := 0 to |running|
        invariant id !in running[..i] && Inv()
        invariant waiting == old(waiting) && running == old(running) && seqs == old(seqs)
        invariant cache.slotBlocks == old(cache.slotBlocks) && cache.freeSlots == old(cache.freeSlots)
        invariant cache.prefixBlockRefs == old(cache.prefixBlockRefs) && cache.trie == old(cache.trie)
      {
        if running[i] == id {
          OrderWithout(running, i);
          CancelRunning(i);
          return true;
        }
        assert running[..i + 1] == running[..i] + [running[i]];
      }
      assert running[..|running|] == running;
      found := false;
    }

    method CancelWaiting(i: nat)
      requires Inv() && i < |waiting|
      modifies this`waiting, this`seqs
      ensures Inv() && waiting == Without(old(waiting), i) && seqs == old(seqs) - {old(waiting)[i]}
      ensures old(waiting)[i] !in waiting && old(waiting)[i] !in running
      ensures forall x :: x != old(waiting)[i] ==> (x in waiting <==> x in old(waiting))
    {
      hide StateOk, PagedKVCache.Valid, FinishReason, Snug, Ample;
      ghost var st := Snapshot([], 0, Live, Admitted);
      Known(st);
      SnugDropped(bounds, |running|, cache.slotBlocks, |cache.prefixBlockRefs|, seqs, waiting[i]);
      assert waiting[i] in waiting;
      UnqueueState(st, i);
      NoDupWithout(waiting, i);
      var id := waiting[i];
      waiting := Without(waiting, i);
      seqs := seqs - {id};
      assert Snapshot([], 0, Live, Admitted) == st.(waiting := waiting, seqs := seqs);
    }

    method CancelRunning(i: nat)
      requires Inv() && i < |running|
      modifies this`running, this`seqs, cache
      ensures Inv() && running == Without(old(running), i) && seqs == old(seqs) - {old(running)[i]}
      ensures old(running)[i] !in waiting && old(running)[i] !in running
      ensures forall x :: x != old(running)[i] ==> (x in running <==> x in old(running))
      ensures cache.prefixBlockRefs == old(cache.prefixBlockRefs) && cache.trie == old(cache.trie)
    {
      hide RowOk, WorldOk, WaitOk, Promised, Listed, Seated, Balanced, EntriesOk, Distinct, NoDup, Counted,
           FinOk, Pure, FinishReason, Snug, Ample;
      ghost var st := Snapshot([], 0, Live, Admitted);
      Known(st);
      var id := running[i];
      assert id in running;
      RunningSeat(st, id);
      SnugVacated(bounds, |running|, cache.slotBlocks, |cache.prefixBlockRefs|, seqs, seqs[id].slot.value);
      SnugDropped(bounds, |running| - 1, cache.slotBlocks[seqs[id].slot.value := []], |cache.prefixBlockRefs|, seqs, id);
      NoDupWithout(running, i);
      CancelState(st, i);
      running := Without(running, i);
      cache.Free(seqs[id].slot.value);
      seqs := seqs - {id};
      assert Snapshot([], 0, Live, Admitted) == Vacating(st, i, st.seqs[id]).(seqs := seqs);
    }

    /** Offline generation. It terminates; `run` is what happened, from the queued requests to the
        table the outputs are read from. It fails only for an over-length prompt or when the pool
        runs dry in the middle of a batch. A request whose sequence met no unbinding event, which
        the run bounds, gets exactly the output it would have had alone. In an engine that is
        provisioned for its requests and whose gate does not change, that is every request. */
    method Generate(prompts: seq<seq<Token>>, maxTokens: nat, ignoreEos: bool)
      returns (r: Option<seq<seq<Token>>>, ghost ids: seq<nat>, ghost run: Run)
      requires Inv() && Roomy() && forall p :: p in prompts ==> p != []
      modifies this`waiting, this`running, this`seqs, this`nextId, this`bounds, cache
      ensures cache.Valid()
      ensures r.None? ==> OutOfBlocks() || TooLong(prompts)
      ensures r.Some? ==> Inv() && Roomy() && !HasWork() && run.tables != [] && run.desks != []
      ensures r.Some? ==>
        && RanTo(net, eos, gate, run, Last(run.tables), Last(run.desks)) && seqs == Last(run.tables) - Elements(ids)
        && Enlisted(old(seqs), run.tables[0], ids, Requests(prompts, maxTokens, ignoreEos, maxLen))
        && Answers(net, eos, gate, Requests(prompts, maxTokens, ignoreEos, maxLen), ids, run, r.value)
      ensures Provided(old(bounds), gate, Requests(prompts, maxTokens, ignoreEos, maxLen)) ==>
        r.Some? && AllAlone(net, eos, Requests(prompts, maxTokens, ignoreEos, maxLen), r.value)
    {
      hide StateOk, Snapshot, PagedKVCache.Valid, FinishReason, FinOk, Served, Enlisted, RunOk, Sized, Mid, Evolves,
           StepOf, Provided, Sheltered, OutOfBlocks;
      ghost var reqs := Requests(prompts, maxTokens, ignoreEos, maxLen);
      r, ids, run := None, [], Run([], [], []);
      ProvidedHere(prompts, maxTokens, ignoreEos);
      var names := Submit(prompts, maxTokens, ignoreEos);
      if names.None? { return; }
      ids := names.value;
      ghost var first, limits := seqs, bounds;
      run := Run([seqs], [Office()], []);
      SchedulerInvariant();
      RunStart(net, eos, gate, seqs, run.desks[0]);
      while HasWork()
        invariant Inv() && Roomy() && bounds == limits
        invariant RanTo(net, eos, gate, run, seqs, Office()) && run.tables[0] == first
        invariant AllEvolve(first, seqs)
        decreases Work(seqs, nextId)
      {
        ghost var was := seqs;
        var ok;
        ok, run := RecordStep(run);
        if !ok { return; }
        EvolveStep(first, was, seqs);
      }
      forall i | 0 <= i < |ids| ensures ids[i] in seqs { EnlistedAt(old(seqs), run.tables[0], ids, reqs, i); }
      var outs := Outputs(names.value);
      assert forall i :: 0 <= i < |prompts| ==> prompts[i] in prompts && reqs[i].prompt == prompts[i];
      AnswersHere(old(seqs), run, ids, reqs, outs);
      ForgetAll(names.value);
      r := Some(outs);
    }

    /** The scheduler's lists and the pool's. */
    ghost function Office(): Desk
      reads this, cache
    {
      Desk(waiting, running, cache.freeSlots, cache.freeBlocks)
    }

    /** One step of a run, recorded. */
    method RecordStep(ghost run: Run) returns (ok: bool, ghost more: Run)
      requires Inv() && Roomy() && HasWork() && RanTo(net, eos, gate, run, seqs, Office())
      modifies this`waiting, this`running, this`seqs, cache
      ensures cache.Valid() && (!ok ==> OutOfBlocks()) && (bounds.Some? ==> ok)
      ensures ok ==> Inv() && Roomy() && AllEvolve(old(seqs), seqs) && Work(seqs, nextId) < Work(old(seqs), nextId)
      ensures ok ==> RanTo(net, eos, gate, more, seqs, Office()) && more.tables[0] == run.tables[0]
    {
      hide StateOk, Snapshot, PagedKVCache.Valid, FinishReason, Sized, Mid, Evolves, StepOf, Evicted, RanTo, Left, Starved;
      ghost var was, desk := seqs, Office();
      SchedulerInvariant();
      ghost var moved, kind;
      ok, moved, kind := Step();
      more := run;
      if ok {
        RanLonger(net, eos, gate, run, was, desk, Stride(moved, kind), seqs, Office());
        more := Longer(run, Stride(moved, kind), seqs, Office());
      }
    }

    predicate TooLong(prompts: seq<seq<Token>>) {
      maxLen.Some? && exists p :: p in prompts && |p| > maxLen.value
    }

    /** At the end of a run every queued request is answered. */
    lemma AnswersHere(was: Table, run: Run, ids: seq<nat>, reqs: seq<Request>, outs: seq<seq<Token>>)
      requires Inv() && !HasWork() && RanTo(net, eos, gate, run, seqs, Office()) && Enlisted(was, run.tables[0], ids, reqs)
      requires AllEvolve(run.tables[0], seqs) && forall i :: 0 <= i < |reqs| ==> reqs[i].prompt != []
      requires |outs| == |ids| && forall i :: 0 <= i < |ids| ==> ids[i] in seqs && outs[i] == seqs[ids[i]].outputs
      ensures Answers(net, eos, gate, reqs, ids, run, outs)
      ensures bounds.Some? && (forall i :: 0 <= i < |reqs| ==> Sheltered(gate, reqs[i])) ==> AllAlone(net, eos, reqs, outs)
    {
      hide StateOk, PagedKVCache.Valid, FinishReason, FinOk, Served, RunOk, Sized, Mid, Evolves, Sheltered;
      forall i | 0 <= i < |reqs| ensures Delivers(run, reqs[i], ids[i]) {
        EnlistedAt(was, run.tables[0], ids, reqs, i);
        DeliversHere(run, reqs[i], ids[i]);
      }
    }

    /** A provided batch of prompts fits the window and the span, and nothing can unbind it. */
    lemma ProvidedHere(prompts: seq<seq<Token>>, maxTokens: nat, ignoreEos: bool)
      ensures
        var reqs := Requests(prompts, maxTokens, ignoreEos, maxLen);
        Provided(bounds, gate, reqs) ==>
          && !TooLong(prompts) && bounds.Some?
          && forall i :: 0 <= i < |reqs| ==> FitsSpan(reqs[i], bounds.value.span) && Sheltered(gate, reqs[i])
    {
      var reqs := Requests(prompts, maxTokens, ignoreEos, maxLen);
      if Provided(bounds, gate, reqs) {
        forall p | p in prompts ensures maxLen.Some? ==> |p| <= maxLen.value {
          var i :| 0 <= i < |prompts| && prompts[i] == p;
          assert reqs[i].prompt == p;
        }
      }
    }

    /** What the end of a run owes request `req`. */
    ghost predicate Delivers(run: Run, req: Request, id: nat)
      reads this
    {
      && req.prompt != [] && id in seqs && Served(net, eos, req, seqs[id].outputs, seqs[id])
      && (Sheltered(gate, req) && (Moved(run.steps, id) == 0 || bounds.Some?) ==>
            seqs[id].outputs == Alone(net, eos, req))
    }

    lemma DeliversHere(run: Run, req: Request, id: nat)
      requires Inv() && !HasWork() && RanTo(net, eos, gate, run, seqs, Office()) && AllEvolve(run.tables[0], seqs)
      requires id in run.tables[0] && run.tables[0][id] == Fresh(req) && req.prompt != []
      ensures Delivers(run, req, id)
    {
      hide StateOk, PagedKVCache.Valid, FinishReason, FinOk, Served, Ample, RunOk, WithinCap, StepOf, Faithful, Calm;
      RunPreempts(net, eos, run, id);
      FinishedHere(id);
      FinishedServes(net, eos, seqs[id]);
      CalmHere(id);
      if Sheltered(gate, req) && seqs[id].preempts == 0 { ShelteredAlone(net, eos, gate, req, seqs[id]); }
    }

    /** Queue all prompts; None if one is over-length. */
    method Submit(prompts: seq<seq<Token>>, maxTokens: nat, ignoreEos: bool) returns (r: Option<seq<nat>>)
      requires Inv() && Roomy() && forall p :: p in prompts ==> p != []
      modifies this`waiting, this`seqs, this`nextId, this`bounds
      ensures Inv() && Roomy() && cache.Valid()
      ensures r.None? <==> TooLong(prompts)
      ensures r.Some? ==> Enlisted(old(seqs), seqs, r.value, Requests(prompts, maxTokens, ignoreEos, maxLen))
      ensures (old(bounds).Some? && forall i :: 0 <= i < |prompts| ==>
        FitsSpan(Requests(prompts, maxTokens, ignoreEos, maxLen)[i], old(bounds).value.span)) ==> bounds == old(bounds)
    {
      hide StateOk, Snapshot, PagedKVCache.Valid, FinishReason, Sized, Mid, FitsSpan;
      ghost var reqs := Requests(prompts, maxTokens, ignoreEos, maxLen);
      var ids: seq<nat> := [];
      for i := 0 to |prompts|
        invariant Inv() && Roomy() && Enlisted(old(seqs), seqs, ids, reqs[..i])
        invariant maxLen.Some? ==> forall j :: 0 <= j < i ==> |prompts[j]| <= maxLen.value
        invariant (old(bounds).Some? && forall j :: 0 <= j < |prompts| ==> FitsSpan(reqs[j], old(bounds).value.span))
          ==> bounds == old(bounds)
      {
        assert prompts[i] in prompts;
        ghost var was := seqs;
        ValidHere();
        var id := AddRequest(prompts[i], maxTokens, ignoreEos);
        if id.None? { return None; }
        EnlistedNext(old(seqs), was, seqs, ids, reqs, i, id.value);
        ids := ids + [id.value];
      }
      assert reqs[..|prompts|] == reqs;
      ValidHere();
      r := Some(ids);
    }

    /** The outputs of the listed requests. */
    method Outputs(ids: seq<nat>) returns (outs: seq<seq<Token>>)
      requires forall i :: 0 <= i < |ids| ==> ids[i] in seqs
      ensures |outs| == |ids| && forall i :: 0 <= i < |ids| ==> outs[i] == seqs[ids[i]].outputs
    {
      outs := seq(|ids|, i requires 0 <= i < |ids| && ids[i] in seqs reads this => seqs[ids[i]].outputs);
    }

    /** The records of the listed requests are dropped. */
    method ForgetAll(ids: seq<nat>)
      requires Inv() && Roomy() && !HasWork()
      modifies this`seqs
      ensures Inv() && Roomy() && !HasWork() && cache.Valid() && seqs == old(seqs) - Elements(ids)
    {
      hide StateOk, Snapshot, PagedKVCache.Valid, FinishReason, Sized, Mid;
      for i := 0 to |ids|
        invariant Inv() && Roomy() && !HasWork() && seqs == old(seqs) - Elements(ids[..i])
      {
        Forget(ids[i]);
        assert Elements(ids[..i + 1]) == Elements(ids[..i]) + {ids[i]};
      }
      assert ids[..|ids|] == ids;
      ValidHere();
    }

    /** Between steps every known request is in exactly one place, and at most `maxNumSeqs`
        unfinished sequences run, on pairwise different slots that are not free. */
    lemma SchedulerInvariant()
      requires Inv()
      ensures |running| <= maxNumSeqs && NoDup(running) && NoDup(waiting)
      ensures forall id :: id in waiting || id in running ==> id in seqs
      ensures forall id :: id in seqs ==>
        if id in waiting then id !in running && seqs[id].status == Waiting
        else if id in running then seqs[id].status == Running && !seqs[id].IsFinished(eos)
        else seqs[id].status == Finished
      ensures forall id :: id in running ==>
        seqs[id].slot.Some? && seqs[id].slot.value < cache.numSlots && seqs[id].slot.value !in cache.freeSlots
      ensures forall a, b :: a in running && b in running && a != b ==> seqs[a].slot != seqs[b].slot
    {
      hide RowOk, WorldOk, PagedKVCache.Valid, FinishReason, Exclusive, Holds;
      Known(Snapshot([], 0, Live, Admitted));
      forall id | id in running
        ensures seqs[id].slot.Some? && seqs[id].slot.value < cache.numSlots && seqs[id].slot.value !in cache.freeSlots
        ensures seqs[id].status == Running
      {
        RunningHere(id);
      }
    }

    /** Between steps every running sequence, however often it was preempted and whatever its
        window, reads through its block table the K/V of the tokens it was fed at each committed
        position, every prefix entry's blocks hold the K/V of its path, and no block a coming step
        may write belongs to anyone else. The only exception is a slot a stale carry tore, which
        lasts until it is recomputed. */
    lemma ContentInvariant(id: nat)
      requires Inv() && id in running && id in seqs && !seqs[id].spoiled
      ensures ReadsOwnTokens(Here(), seqs[id]) && TrieHolds(net, cache.store, cache.blockSize, cache.trie)
    {
      hide PagedKVCache.Valid, FinishReason, Holds, TrieHolds, Seated, Listed, ReadsOwnTokens, Excused;
      RunningHere(id);
      RowHere(id);
      RowReads(Here(), seqs[id]);
    }

    /** What a request has so far is a prefix of its own greedy output, unless its sequence met
        an unbinding event. */
    lemma KeptHere(id: nat)
      requires Inv() && id in seqs
      ensures Kept(net, eos, seqs[id])
      ensures seqs[id].status == Finished ==> id !in waiting && id !in running && FinOk(net, eos, seqs[id])
      ensures seqs[id].status != Finished ==> id in waiting || id in running
    {
      hide WorldOk, Seated, PagedKVCache.Valid, FinishReason, Exclusive, Holds, OnTrack, Kept, Excused, Folded;
      if id in waiting {
        WaitingKept(net, eos, seqs[id]);
      } else if id in running {
        RunningKept(net, eos, seqs[id]);
      } else {
        FinishedKept(net, eos, seqs[id]);
      }
    }

    /** A finished request has exactly the output it would have had alone if nothing unbound its
        sequence; with a fixed gate and room in the window only a preemption can have, and in a
        provisioned engine there is none. */
    lemma FinishedAlone(id: nat)
      requires Inv() && id in seqs && seqs[id].status == Finished
      ensures Faithful(seqs[id]) ==> seqs[id].orig != [] && seqs[id].outputs == Alone(net, eos, seqs[id].Req())
      ensures Sheltered(gate, seqs[id].Req()) && (seqs[id].preempts == 0 || bounds.Some?) ==> Faithful(seqs[id])
    {
      hide StateOk, PagedKVCache.Valid, FinishReason, Ample, WithinCap;
      KeptHere(id);
      CalmHere(id);
    }

    lemma FinishedHere(id: nat)
      requires Inv() && id in seqs && id !in waiting && id !in running
      ensures FinOk(net, eos, seqs[id])
    {
      hide RowOk, WorldOk, Seated, PagedKVCache.Valid, FinishReason, FinOk;
    }

    /** With nothing running there is a free slot and a free block. */
    lemma IdleHere()
      requires Mid([], 0, Live, Admitted)
      ensures running == [] ==> ((maxNumSeqs > 0 && cache.freeSlots != [] && cache.freeBlocks != []) <==> Room())
    {
      hide StateOk;
      if running == [] {
        IdleRoom(Snapshot([], 0, Live, Admitted), cache.blockRefcount, cache.freeBlocks, cache.numBlocks, cache.prefixBlockRefs);
      }
    }

    lemma KnownHere(batch: seq<nat>)
      requires Mid(batch, 0, Live, Admitted)
      ensures forall id :: id in waiting || id in running || id in batch ==> id in seqs
      ensures forall id :: id in waiting ==> id !in running && id !in batch
    {
      hide StateOk, PagedKVCache.Valid;
      Known(Snapshot(batch, 0, Live, Admitted));
    }
  }

  /** The cache is large enough for `b`: see `Provisioned`. */
  predicate Ample(b: Bounds, cache: PagedKVCache, maxNumSeqs: nat, specK: nat) {
    && cache.blockSize > 0 && b.cap == Needed(b.span + specK, cache.blockSize) && b.seats == maxNumSeqs
    && cache.maxPrefixBlocks == Some(b.budget) && Provisioned(b, cache.numBlocks, cache.numSlots)
  }

  lemma Unbounded(live: nat, pinned: nat)
    ensures forall tables, seqs :: Snug(None, live, tables, pinned, seqs)
  {
  }

  lemma MatchFits(b: Option<Bounds>, cache: PagedKVCache, maxNumSeqs: nat, specK: nat, q: Sequence, n: nat, matched: nat)
    requires b.Some? ==> Ample(b.value, cache, maxNumSeqs, specK) && Steady(q, b.value.span)
    requires Excused(q) && n * cache.blockSize == matched <= |q.prompt|
    ensures b.Some? ==> n <= b.value.cap && b.value.seats == maxNumSeqs
  {
    hide Excused, Steady;
    if b.Some? { SharedFits(q, n, matched, b.value.span, specK, cache.blockSize); }
  }

  ghost function Admissible(b: Option<Bounds>, req: Request): Option<Bounds> {
    if b.Some? && FitsSpan(req, b.value.span) then b else None
  }

  lemma AdmissibleSnug(b: Option<Bounds>, live: nat, tables: seq<seq<nat>>, pinned: nat, seqs: Table, id: nat, q: Sequence)
    requires Snug(b, live, tables, pinned, seqs) && q.preempts == 0
    ensures Snug(Admissible(b, q.Req()), live, tables, pinned, seqs[id := q])
  {
  }

  /** Since `first` requests were admitted; who runs is as it was. */
  ghost predicate Reached(first: Table, now: Table, running: seq<nat>) {
    && AllEvolve(first, now) && AllRescheduled(first, now, [])
    && forall id :: id in running ==> id in first && id in now && now[id] == first[id]
  }

  /** In the middle of scheduling: the `moved` have left the running list for the end of the
      queue, folded, and who still runs is as it was. */
  ghost predicate Moving(eos: Option<Token>, first: Table, ran: seq<nat>, queue: seq<nat>, now: Table,
                         running: seq<nat>, waiting: seq<nat>, moved: seq<nat>) {
    && queue + moved == waiting && NoDup(moved) && (forall id :: id in moved ==> id in ran)
    && AllRescheduled(first, now, moved) && AllEvolve(first, now) && Evicted(first, ran, moved, running)
    && (forall id :: id in running ==>
          && id in ran && id !in moved && id in first && id in now && now[id] == first[id]
          && !now[id].IsFinished(eos))
  }

  lemma MovingStart(eos: Option<Token>, seqs: Table, running: seq<nat>, waiting: seq<nat>)
    requires forall id :: id in running ==> id in seqs && !seqs[id].IsFinished(eos)
    ensures Moving(eos, seqs, running, waiting, seqs, running, waiting, [])
  {
    hide FinishReason;
    NothingRescheduled(seqs);
    assert waiting + [] == waiting;
  }

  lemma MovingFilled(eos: Option<Token>, first: Table, ran: seq<nat>, queue: seq<nat>, was: Table, now: Table,
                     running: seq<nat>, waiting: seq<nat>, moved: seq<nat>)
    requires Moving(eos, first, ran, queue, was, running, waiting, moved)
    requires AllRescheduled(was, now, []) && AllEvolve(was, now)
    requires forall id :: id in running ==> id in now && id in was && now[id] == was[id]
    ensures Moving(eos, first, ran, queue, now, running, waiting, moved)
    ensures queue + moved == waiting && NoDup(moved) && AllRescheduled(first, now, moved) && AllEvolve(first, now)
    ensures Evicted(first, ran, moved, running) && forall id :: id in moved ==> id in ran
    ensures forall id :: id in running ==> id in ran && id in now && !now[id].IsFinished(eos)
  {
    hide FinishReason, Evolves, Rescheduled, Evicted;
    RescheduledOn(first, was, now, moved);
    EvolveStep(first, was, now);
  }

  lemma SameFewest(was: Table, now: Table, ids: seq<nat>, i: nat)
    requires FirstFewest(now, ids, i) && forall id :: id in ids ==> id in was && id in now && was[id] == now[id]
    ensures FirstFewest(was, ids, i)
  {
  }

  /** Who still runs has the slot it had. */
  lemma SlotKept(eos: Option<Token>, first: Table, ran: seq<nat>, queue: seq<nat>, now: Table, running: seq<nat>,
                 waiting: seq<nat>, moved: seq<nat>, i: nat)
    requires Moving(eos, first, ran, queue, now, running, waiting, moved) && i < |running|
    ensures running[i] in first && running[i] in now && first[running[i]] == now[running[i]]
  {
    hide FinishReason, Evolves, Rescheduled, Evicted;
    assert running[i] in running;
  }

  lemma MovingNext(eos: Option<Token>, first: Table, ran: seq<nat>, queue: seq<nat>, was: Table, now: Table,
                   running: seq<nat>, waiting: seq<nat>, moved: seq<nat>, i: nat)
    requires Moving(eos, first, ran, queue, was, running, waiting, moved) && NoDup(running)
    requires FirstFewest(was, running, i)
    requires running[i] in was && !was[running[i]].IsFinished(eos) ==> was[running[i]].status == Running
    requires running[i] in was && !was[running[i]].IsFinished(eos) ==> now == was[running[i] := Preempt(was[running[i]])]
    requires AllEvolve(was, now)
    ensures Moving(eos, first, ran, queue, now, Without(running, i), waiting + [running[i]], moved + [running[i]])
    ensures running[i] in was && !was[running[i]].IsFinished(eos)
  {
    hide FinishReason, Evolves, Rescheduled, Preempt, Evicted;
    var id := running[i];
    assert id in running;
    SameFewest(first, was, running, i);
    EvictOne(first, ran, moved, running, i);
    PreemptReschedules(first, was, now, moved, id);
    EvolveStep(first, was, now);
    assert queue + (moved + [id]) == (queue + moved) + [id];
    NoDupAppend(moved, id);
    NoDupWithout(running, i);
  }

  function Requests(prompts: seq<seq<Token>>, maxTokens: nat, ignoreEos: bool, maxLen: Option<nat>): (r: seq<Request>)
    ensures |r| == |prompts|
  {
    seq(|prompts|, i requires 0 <= i < |prompts| => Request(prompts[i], maxTokens, ignoreEos, maxLen))
  }

  function Fresh(req: Request): Sequence {
    NewSequence(req.prompt, req.maxTokens, req.ignoreEos, req.maxLen)
  }

  /** The requests are in the table as new sequences, under new names, beside what was there. */
  ghost predicate Enlisted(was: Table, now: Table, ids: seq<nat>, reqs: seq<Request>) {
    && |ids| == |reqs| && NoDup(ids)
    && (forall i :: 0 <= i < |ids| ==> ids[i] !in was && ids[i] in now && now[ids[i]] == Fresh(reqs[i]))
    && (forall id :: id in now ==> id in was || id in ids)
    && (forall id :: id in was ==> id in now && now[id] == was[id])
  }

  lemma EnlistedNext(first: Table, was: Table, now: Table, ids: seq<nat>, reqs: seq<Request>, i: nat, id: nat)
    requires i < |reqs| && Enlisted(first, was, ids, reqs[..i]) && id !in was && now == was[id := Fresh(reqs[i])]
    ensures Enlisted(first, now, ids + [id], reqs[..i + 1])
  {
    NoDupAppend(ids, id);
  }

  lemma EnlistedAt(was: Table, now: Table, ids: seq<nat>, reqs: seq<Request>, i: nat)
    requires Enlisted(was, now, ids, reqs) && i < |ids|
    ensures |ids| == |reqs| && ids[i] in now && now[ids[i]] == Fresh(reqs[i])
  {
  }

  /** Nothing but a preemption can unbind the request: the gate is fixed, and if it allows
      speculation the window has room for the whole request. */
  predicate Sheltered(gate: Option<bool>, req: Request) {
    gate.Some? && (gate.value && req.maxLen.Some? ==> |req.prompt| + req.maxTokens <= req.maxLen.value)
  }

  /** What a caller checks before generating: the engine is provisioned for the requests, they are
      within the window, and nothing can unbind them. */
  predicate Provided(bounds: Option<Bounds>, gate: Option<bool>, reqs: seq<Request>) {
    && bounds.Some?
    && forall i :: 0 <= i < |reqs| ==>
         && FitsSpan(reqs[i], bounds.value.span) && Sheltered(gate, reqs[i])
         && (reqs[i].maxLen.Some? ==> |reqs[i].prompt| <= reqs[i].maxLen.value)
  }

  lemma ShelteredAlone(net: Net, eos: Option<Token>, gate: Option<bool>, req: Request, q: Sequence)
    requires Sheltered(gate, req) && FinOk(net, eos, q) && q.Req() == req && q.preempts == 0 && Calm(gate.value, q)
    requires req.prompt != []
    ensures q.outputs == Alone(net, eos, req)
  {
    hide FinishReason;
  }

  /** The run ends in `last` and `desk`, and its decode steps are of the kinds the gate allows. */
  ghost predicate RanTo(net: Net, eos: Option<Token>, gate: Option<bool>, run: Run, last: Table, desk: Desk) {
    && run.tables != [] && run.desks != [] && RunOk(net, eos, run) && Last(run.tables) == last && Last(run.desks) == desk
    && forall step :: step in run.steps ==> KindAllowed(gate, step.kind)
  }

  lemma RunStart(net: Net, eos: Option<Token>, gate: Option<bool>, seqs: Table, desk: Desk)
    requires NoDup(desk.running)
    ensures RanTo(net, eos, gate, Run([seqs], [desk], []), seqs, desk) && AllEvolve(seqs, seqs)
  {
    hide StrideOk, NoDup;
  }

  lemma RanLonger(net: Net, eos: Option<Token>, gate: Option<bool>, run: Run, was: Table, desk: Desk, step: Stride,
                  now: Table, after: Desk)
    requires RanTo(net, eos, gate, run, was, desk) && StepOf(net, was, now, step.moved, step.kind)
    requires Scheduled(eos, was, now, desk, step.moved, after) && KindAllowed(gate, step.kind)
    ensures RanTo(net, eos, gate, Longer(run, step, now, after), now, after)
    ensures Longer(run, step, now, after).tables[0] == run.tables[0]
  {
    hide StepOf, Scheduled, NoDup;
    RunLonger(net, eos, run, step, now, after);
  }

  /** Each request got what its sequence generated in the run, and what it would have got alone
      unless its sequence met an unbinding event; with a fixed gate and room in the window only a
      preemption in the run is one. */
  ghost predicate Answers(net: Net, eos: Option<Token>, gate: Option<bool>, reqs: seq<Request>, ids: seq<nat>, run: Run,
                          outs: seq<seq<Token>>) {
    && |outs| == |ids| == |reqs| && run.tables != []
    && forall i :: 0 <= i < |reqs| ==>
         && reqs[i].prompt != [] && ids[i] in Last(run.tables)
         && Served(net, eos, reqs[i], outs[i], Last(run.tables)[ids[i]])
         && (Sheltered(gate, reqs[i]) && Moved(run.steps, ids[i]) == 0 ==> outs[i] == Alone(net, eos, reqs[i]))
  }

  ghost predicate AllAlone(net: Net, eos: Option<Token>, reqs: seq<Request>, outs: seq<seq<Token>>) {
    |outs| == |reqs| && forall i :: 0 <= i < |reqs| ==> reqs[i].prompt != [] && outs[i] == Alone(net, eos, reqs[i])
  }

  /** A fixed gate leaves only one kind of decode step. */
  predicate KindAllowed(gate: Option<bool>, kind: Kind) {
    && (kind == Speculating ==> gate != Some(false)) && (kind == Decoding ==> gate != Some(true))
  }

  ghost predicate CalmAll(gate: Option<bool>, seqs: Table) {
    gate.Some? ==> forall id :: id in seqs ==> Calm(gate.value, seqs[id])
  }

  /** `q` was admitted as `r`: it took the last free slot, and that slot's table is the longest
      stored prefix of its prompt. */
  ghost predicate TookPrefix(q: Sequence, r: Sequence, trie: Node, free: seq<nat>, tables: seq<seq<nat>>) {
    free != [] && Last(free) < |tables|
    && exists matched :: r == Admit(q, Last(free), matched) && LongestMatch(trie, q.prompt, matched, tables[Last(free)])
  }

  /** The sequence's table is the longest prefix of its prompt that `trie` has stored. */
  ghost predicate SharesLongest(trie: Node, q: Sequence, tables: seq<seq<nat>>) {
    q.slot.Some? && q.slot.value < |tables| && LongestMatch(trie, q.prompt, q.matched, tables[q.slot.value])
  }

  ghost predicate AllShare(trie: Node, seqs: Table, tables: seq<seq<nat>>, batch: seq<nat>) {
    forall i :: 0 <= i < |batch| ==> batch[i] in seqs && SharesLongest(trie, seqs[batch[i]], tables)
  }

  /** The tries store the same paths with the same blocks. */
  ghost predicate SameBlocks(was: Node, now: Node) {
    forall q ::
      && At(was, q).Some? == At(now, q).Some?
      && (At(was, q).Some? ==> At(was, q).value.blocks == At(now, q).value.blocks)
  }

  lemma SharesNone(trie: Node, seqs: Table, tables: seq<seq<nat>>)
    ensures AllShare(trie, seqs, tables, []) && SameBlocks(trie, trie)
  {
  }

  /** Lookups stamp entries and change nothing else, so every member of the batch gets what was
      stored before any of them was admitted. */
  lemma SharesNext(stored: Node, trie: Node, now: Node, was: Table, seqs: Table, tables: seq<seq<nat>>,
                   after: seq<seq<nat>>, batch: seq<nat>, id: nat, free: seq<nat>, stamp: nat)
    requires AllShare(stored, was, tables, batch) && SameBlocks(stored, trie)
    requires forall i :: 0 <= i < |batch| ==> batch[i] in was && SeatOk(was[batch[i]], free, |tables|)
    requires id in was && id in seqs && seqs == was[id := seqs[id]] && id !in batch
    requires TookPrefix(was[id], seqs[id], trie, free, after) && Touched(trie, now, was[id].prompt, stamp)
    requires |after| == |tables| && forall s :: 0 <= s < |after| && s != Last(free) ==> after[s] == tables[s]
    ensures AllShare(stored, seqs, after, batch + [id]) && SameBlocks(stored, now)
  {
    hide LongestMatch, Touched;
    TouchedBlocks(trie, now, was[id].prompt, stamp);
    var matched :|
      seqs[id] == Admit(was[id], Last(free), matched) && LongestMatch(trie, was[id].prompt, matched, after[Last(free)]);
    SameMatch(stored, trie, was[id].prompt, matched, after[Last(free)]);
    forall i | 0 <= i < |batch + [id]|
      ensures (batch + [id])[i] in seqs && SharesLongest(stored, seqs[(batch + [id])[i]], after)
    {
      if i < |batch| {
        assert batch[i] in batch && batch[i] != id && SharesLongest(stored, was[batch[i]], tables);
        assert Last(free) in free;
      }
    }
  }

  lemma TouchedBlocks(was: Node, now: Node, tokens: seq<Token>, stamp: nat)
    requires Touched(was, now, tokens, stamp)
    ensures SameBlocks(was, now)
  {
  }

  lemma SameMatch(was: Node, now: Node, tokens: seq<Token>, matched: nat, blocks: seq<nat>)
    requires SameBlocks(was, now) && LongestMatch(now, tokens, matched, blocks)
    ensures LongestMatch(was, tokens, matched, blocks)
  {
  }

  lemma TookAdmits(q: Sequence, r: Sequence, trie: Node, free: seq<nat>, tables: seq<seq<nat>>)
    requires TookPrefix(q, r, trie, free, tables)
    ensures exists slot, matched :: r == Admit(q, slot, matched)
  {
    hide LongestMatch;
  }

  /** The slot reads exactly the K/V of the sequence's committed tokens, and what lies past
      them belongs to the sequence alone. */
  ghost predicate ReadsOwnTokens(w: World, q: Sequence) {
    && w.bs > 0 && q.slot.Some? && q.slot.value < |w.tables| && q.fold <= |q.outputs|
    && q.length + 1 == |q.Fed()|
    && Holds(w.net, w.store, w.tables[q.slot.value], w.bs, q.Fed()[..q.length])
    && Exclusive(w.tables, w.trie, q.slot.value, q.length / w.bs)
  }

  lemma RowReads(w: World, q: Sequence)
    requires RowOk(w, Live, q) && !q.spoiled
    ensures ReadsOwnTokens(w, q)
  {
    hide Holds, GreedyFrom, FinishReason;
    var table, toks := w.tables[q.slot.value], Claimed(Live, q);
    HoldsPrefix(w.net, w.store, table, w.bs, toks, table, q.length);
    assert toks[..q.length] == q.Fed()[..q.length];
    DivMono(|q.prompt|, q.length, w.bs);
  }

  /** One plain decode step; unless the slot has a hole the token is the greedy one. */
  ghost predicate Decoded(net: Net, q: Sequence, r: Sequence) {
    && r.outputs != [] && r == DecodeStep(q, Last(r.outputs))
    && (!q.spoiled && q.prompt != [] && q.fold <= |q.outputs| ==> Last(r.outputs) == Next(net, q.Fed()))
  }

  /** A row verified with `draft` in a pass of `k + 1` tokens: it is accepted against its truths,
      which are the greedy tokens unless the slot has a hole or the carry is stale. */
  ghost predicate Verified(net: Net, eos: Option<Token>, q: Sequence, r: Sequence, draft: seq<Token>, k: nat) {
    && q.carry.Some? && |draft| <= k && q.prompt != [] && q.fold <= |q.outputs|
    && exists truth, n, m :: AcceptedTruly(net, eos, q, VerifyFeed(0, q, draft, k).ver, truth, |draft|, r, n, m)
  }

  /** The rows up to `i` made a plain step. */
  ghost predicate DecodedTo(net: Net, was: Table, now: Table, ids: seq<nat>, i: nat) {
    && i <= |ids|
    && forall j :: 0 <= j < i ==> ids[j] in was && ids[j] in now && Decoded(net, was[ids[j]], now[ids[j]])
  }

  lemma DecodedNext(net: Net, first: Table, was: Table, now: Table, ids: seq<nat>, i: nat)
    requires DecodedTo(net, first, was, ids, i) && i < |ids| && NoDup(ids) && ids[i] in first
    requires ids[i] in now && now == was[ids[i] := now[ids[i]]] && Decoded(net, first[ids[i]], now[ids[i]])
    ensures DecodedTo(net, first, now, ids, i + 1)
  {
    hide Decoded;
  }

  /** The rows up to `i` were verified with their drafts. */
  ghost predicate VerifiedTo(net: Net, eos: Option<Token>, was: Table, now: Table, ids: seq<nat>, drafts: seq<seq<Token>>,
                             k: nat, i: nat) {
    && i <= |ids| == |drafts|
    && forall j :: 0 <= j < i ==> ids[j] in was && ids[j] in now && Verified(net, eos, was[ids[j]], now[ids[j]], drafts[j], k)
  }

  lemma VerifiedNext(net: Net, eos: Option<Token>, first: Table, was: Table, now: Table, ids: seq<nat>,
                     drafts: seq<seq<Token>>, k: nat, i: nat)
    requires VerifiedTo(net, eos, first, was, ids, drafts, k, i) && i < |ids| && NoDup(ids) && ids[i] in first
    requires ids[i] in now && now == was[ids[i] := now[ids[i]]]
    requires Verified(net, eos, first[ids[i]], now[ids[i]], drafts[i], k)
    ensures VerifiedTo(net, eos, first, now, ids, drafts, k, i + 1)
  {
    hide Verified;
  }

  ghost predicate AcceptedTruly(net: Net, eos: Option<Token>, q: Sequence, ver: seq<Token>, truth: seq<Token>, actual: nat,
                                r: Sequence, n: nat, m: nat)
    requires q.prompt != [] && q.fold <= |q.outputs|
  {
    && Accepted(q, eos, ver, truth, actual, r, n, m)
    && (!q.spoiled && !q.stale ==> forall t :: 0 <= t < |ver| ==> truth[t] == Next(net, q.Fed() + ver[..t + 1]))
  }

  lemma AcceptedVerifies(w: World, q: Sequence, id: nat, draft: seq<Token>, k: nat, outs: seq<Hidden>, truth: seq<Token>,
                         r: Sequence, n: nat, m: nat)
    requires q.carry.Some? && |draft| <= k && Answered(w, q, VerifyFeed(id, q, draft, k), outs)
    requires |truth| == k + 1 == |outs| && forall t :: 0 <= t < |truth| ==> truth[t] == w.net.pick(outs[t])
    requires Accepted(q, w.eos, VerifyFeed(id, q, draft, k).ver, truth, |draft|, r, n, m)
    ensures Verified(w.net, w.eos, q, r, draft, k)
  {
    hide RowOk, Accepted, Holds, Next;
    assert AcceptedTruly(w.net, w.eos, q, VerifyFeed(0, q, draft, k).ver, truth, |draft|, r, n, m);
  }

  /** A row after the bootstrap pass carries a token: the one it had, or its greedy successor. */
  ghost predicate Booted(net: Net, q: Sequence, r: Sequence) {
    && r == q.(carry := r.carry) && r.carry.Some? && (q.carry.Some? ==> r == q)
    && (q.carry.None? && !q.spoiled && q.prompt != [] && q.fold <= |q.outputs| ==> r.carry.value == Next(net, q.Fed()))
  }

  /** What a speculative step makes of its rows: each carries a token, its own or the greedy one, and
      unless nobody drafted anything each is then verified with its own draft, `k` tokens wide. */
  ghost predicate Drafted(net: Net, eos: Option<Token>, was: Table, mid: Table, now: Table, ids: seq<nat>,
                          drafts: seq<seq<Token>>, k: nat) {
    (forall i :: 0 <= i < |ids| ==> BootedAt(net, was, mid, ids[i])) && Resolved(net, eos, mid, now, ids, drafts, k)
  }

  ghost predicate Resolved(net: Net, eos: Option<Token>, mid: Table, now: Table, ids: seq<nat>, drafts: seq<seq<Token>>, k: nat) {
    && |drafts| == |ids| && (forall i :: 0 <= i < |ids| ==> ids[i] in now && |drafts[i]| <= k)
    && if k == 0 then forall i :: 0 <= i < |ids| ==>
         ids[i] in mid && mid[ids[i]].carry.Some? && now[ids[i]] == NoDraftStep(mid[ids[i]])
       else forall i :: 0 <= i < |ids| ==> ids[i] in mid && Verified(net, eos, mid[ids[i]], now[ids[i]], drafts[i], k)
  }

  ghost predicate BootedAt(net: Net, was: Table, mid: Table, id: nat) {
    id in was && id in mid && Booted(net, was[id], mid[id])
  }

  lemma BootedRows(net: Net, was: Table, mid: Table, ids: seq<nat>)
    requires mid.Keys == was.Keys && forall id :: id in ids ==> id in was && Booted(net, was[id], mid[id])
    ensures forall i :: 0 <= i < |ids| ==> BootedAt(net, was, mid, ids[i])
  {
    hide Booted;
    forall i | 0 <= i < |ids| ensures BootedAt(net, was, mid, ids[i]) {
      assert ids[i] in ids;
    }
  }

  /** A row that carries a token needs no bootstrap. */
  lemma CarriersBooted(net: Net, seqs: Table, ids: seq<nat>)
    requires forall id :: id in ids ==> id in seqs
    ensures forall id :: id in ids && seqs[id].carry.Some? ==> Booted(net, seqs[id], seqs[id])
  {
  }

  lemma BootedStepped(net: Net, was: Table, mid: Table, now: Table, ids: seq<nat>)
    requires mid.Keys == was.Keys && Stepped(net, mid, now, ids, |ids|, Speculating)
    requires forall id :: id in mid ==> if id in ids then Booted(net, was[id], mid[id]) else mid[id] == was[id]
    ensures Stepped(net, was, now, ids, |ids|, Speculating)
  {
    hide Gained, Booted;
    forall i | 0 <= i < |ids| ensures Gained(net, was[ids[i]], now[ids[i]], Speculating) {
      assert ids[i] in ids;
      BootedGains(net, was[ids[i]], mid[ids[i]], now[ids[i]]);
    }
  }

  lemma BootedGains(net: Net, q: Sequence, mid: Sequence, r: Sequence)
    requires Booted(net, q, mid) && Gained(net, mid, r, Speculating)
    ensures Gained(net, q, r, Speculating)
  {
    hide FinishReason, GreedyTail;
  }

  lemma AcceptedCalm(q: Sequence, eos: Option<Token>, ver: seq<Token>, truth: seq<Token>, actual: nat,
                     r: Sequence, n: nat, m: nat)
    requires Accepted(q, eos, ver, truth, actual, r, n, m)
    ensures Calm(true, q) ==> Calm(true, r)
  {
    hide AcceptCount, EmitCount, FinishReason;
    AcceptedBounds(q, eos, ver, truth, actual, r, n, m);
  }

  lemma GainedSlot(net: Net, q: Sequence, r: Sequence, kind: Kind)
    requires Gained(net, q, r, kind)
    ensures r.slot == q.slot && r.Req() == q.Req() && r.preempts == q.preempts
  {
  }

  /** What the drafters propose: anything, up to the budget. */
  method AnyDrafts(n: nat, k: nat) returns (drafts: seq<seq<Token>>)
    ensures |drafts| == n && forall i :: 0 <= i < n ==> |drafts[i]| <= k
  {
    drafts := [];
    for i := 0 to n
      invariant |drafts| == i && forall j :: 0 <= j < i ==> |drafts[j]| <= k
    {
      var d: seq<Token> := *;
      drafts := drafts + [if |d| <= k then d else d[..k]];
    }
  }

  method Longest(drafts: seq<seq<Token>>) returns (n: nat)
    ensures forall i :: 0 <= i < |drafts| ==> |drafts[i]| <= n
    ensures n > 0 ==> exists i :: 0 <= i < |drafts| && |drafts[i]| == n
  {
    n := 0;
    for j := 0 to |drafts|
      invariant forall i :: 0 <= i < j ==> |drafts[i]| <= n
      invariant n > 0 ==> exists i :: 0 <= i < j && |drafts[i]| == n
    {
      if |drafts[j]| > n { n := |drafts[j]|; }
    }
  }

  /** Round the longest draft up to one of a few widths; a draft is never cut. */
  method DraftBucket(n: nat, specK: nat) returns (r: nat)
    requires n <= specK
    ensures n <= r <= specK && r in [1, 2, 4, 8, 16, 32, specK]
    ensures forall b :: b in [1, 2, 4, 8, 16, 32] && n <= b < specK ==> r <= b
  {
    var buckets := [1, 2, 4, 8, 16, 32];
    for i := 0 to |buckets|
      invariant forall j :: 0 <= j < i ==> buckets[j] < n
    {
      if buckets[i] >= specK { break; }
      if n <= buckets[i] { return buckets[i]; }
    }
    r := specK;
  }

  ghost predicate Kept(net: Net, eos: Option<Token>, q: Sequence) {
    Faithful(q) ==> q.orig != [] && q.outputs <= Alone(net, eos, q.Req())
  }

  lemma TrackKept(net: Net, eos: Option<Token>, q: Sequence)
    requires OnTrack(net, eos, q)
    ensures q.orig != [] && q.outputs <= Alone(net, eos, q.Req())
  {
    GreedyFromEnds(net, eos, q.Req(), q.outputs);
  }

  lemma WaitingKept(net: Net, eos: Option<Token>, q: Sequence)
    requires WaitOk(net, eos, q)
    ensures Kept(net, eos, q)
  {
    if Faithful(q) && q.outputs != [] { TrackKept(net, eos, q); }
  }

  lemma RunningKept(net: Net, eos: Option<Token>, q: Sequence)
    requires Pure(net, eos, Live, q)
    ensures Kept(net, eos, q)
  {
    if Faithful(q) { TrackKept(net, eos, q); }
  }

  lemma FinishedKept(net: Net, eos: Option<Token>, q: Sequence)
    requires FinOk(net, eos, q)
    ensures Kept(net, eos, q)
  {
  }

  /** `out` is what a request got up to its sequence's stop, and unless its sequence met an unbinding event it is what
      the request would have got alone. */
  ghost predicate Served(net: Net, eos: Option<Token>, req: Request, out: seq<Token>, q: Sequence) {
    q.Req() == req && q.outputs == out && q.IsFinished(eos) && (Faithful(q) ==> req.prompt != [] && out == Alone(net, eos, req))
  }

  lemma FinishedServes(net: Net, eos: Option<Token>, q: Sequence)
    requires FinOk(net, eos, q)
    ensures Served(net, eos, q.Req(), q.outputs, q)
  {
  }

  lemma NoTokens(seqs: Table)
    ensures TokenSum([], seqs) == 0 && AllEvolve(seqs, seqs)
  {
  }

  /** The first of `ids` with the fewest generated tokens. */
  method FewestOutputs(ids: seq<nat>, seqs: Table) returns (at: nat)
    requires ids != [] && forall id :: id in ids ==> id in seqs
    ensures at < |ids|
    ensures forall k :: 0 <= k < |ids| ==> |seqs[ids[at]].outputs| <= |seqs[ids[k]].outputs|
    ensures forall k :: 0 <= k < at ==> |seqs[ids[at]].outputs| < |seqs[ids[k]].outputs|
  {
    at := 0;
    for j := 0 to |ids|
      invariant at < |ids|
      invariant forall k :: 0 <= k < j ==> |seqs[ids[at]].outputs| <= |seqs[ids[k]].outputs|
      invariant forall k :: 0 <= k < at ==> |seqs[ids[at]].outputs| < |seqs[ids[k]].outputs|
    {
      assert ids[at] in ids && ids[j] in ids;
      if |seqs[ids[j]].outputs| < |seqs[ids[at]].outputs| { at := j; }
    }
  }

  lemma LeavingEvolves(gate: Option<bool>, seqs: Table, id: nat)
    requires id in seqs && seqs[id].status == Running && CalmAll(gate, seqs)
    ensures AllEvolve(seqs, seqs[id := Preempt(seqs[id])])
    ensures AllEvolve(seqs, seqs[id := seqs[id].(status := Finished)])
    ensures CalmAll(gate, seqs[id := Preempt(seqs[id])]) && CalmAll(gate, seqs[id := seqs[id].(status := Finished)])
  {
  }

  /** A preempted sequence leaves for good if it is done and for the queue otherwise. */
  lemma LeaveState(st: State, i: nat)
    requires StateOk(st) && i < |st.running| && st.running[i] in st.seqs
    ensures
      var q := st.seqs[st.running[i]];
      if q.IsFinished(st.w.eos) then StateOk(Vacating(st, i, q.(status := Finished)))
      else StateOk(Vacating(st, i, Preempt(q)).(waiting := st.waiting + [st.running[i]]))
  {
    hide StateOk, Pure, FinishReason, Preempt, FinOk, WaitOk;
    var q := st.seqs[st.running[i]];
    assert st.running[i] in st.running;
    RunningSeat(st, st.running[i]);
    if q.IsFinished(st.w.eos) {
      FinishRow(st.w.net, st.w.eos, q);
      RetireState(st, i, q.(status := Finished));
    } else {
      PreemptRow(st.w.net, st.w.eos, q);
      RequeueState(st, i, Preempt(q));
    }
  }

  lemma StepShifts(eos: Option<Token>, was: Table, now: Table, ran: seq<nat>, queue: seq<nat>, moved: seq<nat>,
                   left: seq<nat>, batch: seq<nat>, running: seq<nat>, waiting: seq<nat>)
    requires Evicted(was, ran, moved, left) && queue + moved == batch + waiting
    requires Sifted(eos, now, left + batch, running)
    ensures Shifted(eos, was, now, ran, queue, moved, running, waiting)
  {
    hide Evicted, Sifted;
    assert Joined(eos, now, left, queue + moved, batch, running, waiting);
  }

  lemma NothingRetired(eos: Option<Token>, seqs: Table)
    ensures Retired(eos, seqs, seqs)
  {
  }

  lemma RetiredStep(eos: Option<Token>, first: Table, was: Table, now: Table, id: nat)
    requires Retired(eos, first, was) && id in was && was[id].IsFinished(eos) && was[id].status == Running
    requires now == was[id := was[id].(status := Finished)]
    ensures Retired(eos, first, now)
  {
  }

  lemma WithoutMiddle(a: seq<nat>, b: seq<nat>, j: nat)
    requires j < |b|
    ensures Without(a + b[j..], |a|) == a + b[j + 1..]
  {
  }

  lemma FilledGain(net: Net, was: Table, now: Table, batch: seq<nat>, i: nat)
    requires FilledSince(net, was, now, batch, |batch|) && i < |batch|
    ensures batch[i] in was && batch[i] in now && |was[batch[i]].outputs| < |now[batch[i]].outputs|
    ensures was[batch[i]].status == Running
  {
    assert FirstToken(net, was[batch[i]], now[batch[i]]);
  }

  lemma SteppedGain(net: Net, was: Table, now: Table, ids: seq<nat>, i: nat, kind: Kind)
    requires Stepped(net, was, now, ids, |ids|, kind) && i < |ids|
    ensures ids[i] in was && ids[i] in now && |was[ids[i]].outputs| < |now[ids[i]].outputs|
  {
    assert Gained(net, was[ids[i]], now[ids[i]], kind);
  }

  lemma CoversWhole(n: nat, blocks: nat, bs: nat)
    requires bs > 0 && n <= blocks * bs
    ensures n / bs <= blocks
  {
    DivMono(n, blocks * bs, bs);
    DivOf(blocks, 0, bs);
  }

  lemma EvolveStep(a: Table, b: Table, c: Table)
    requires AllEvolve(a, b) && AllEvolve(b, c)
    ensures AllEvolve(a, c)
  {
  }

  /** Admitting `id` changes neither a request nor a prompt. */
  lemma BatchGrows(was: Table, now: Table, batch: seq<nat>, id: nat)
    requires id in was && id in now && now == was[id := now[id]] && was[id].status != Finished
    requires exists slot, matched :: now[id] == Admit(was[id], slot, matched)
    requires forall x :: x in batch ==> x in was
    ensures AllEvolve(was, now)
    ensures TokenSum(batch + [id], now) == TokenSum(batch, was) + |was[id].prompt|
  {
    TokenSumSame(batch, was, now);
    assert Init(batch + [id]) == batch;
  }
}
