/** Small inputs to the cache and to the engine on which what the code's comments rule out happens. */
module Scenarios {
  import opened Options
  import opened Lists
  import opened Network
  import opened Greedy
  import opened Sequences
  import opened PrefixTrie
  import opened Blocks
  import opened PagedCache
  import opened EngineRows
  import opened EngineLists
  import opened Engine
  import opened Limits

  /** `n` tokens `t`. */
  function Same(t: Token, n: nat): (r: seq<Token>)
    ensures |r| == n && forall i :: 0 <= i < n ==> r[i] == t
  {
    seq(n, _ => t)
  }

  /** What one slot takes to hold `n` positions. */
  lemma DemandAlone(have: nat, n: nat, bs: nat)
    requires bs > 0
    ensures
      var need := if Needed(n, bs) <= have then have else Needed(n, bs);
      Demand([have], [0], [n], bs) == need - have && Fitted([have], [0], [n], bs) == [need]
  {
    hide Needed;
    var s: seq<nat>, l: seq<nat> := [0], [n];
    assert s[1..] == [] && l[1..] == [];
  }

  lemma TablePerSlot(cache: PagedKVCache)
    requires cache.Valid()
    ensures |cache.slotBlocks| == cache.numSlots
  {
    hide Balanced, Counted, Distinct, EntriesOk;
  }

  lemma ShortAlone(tables: seq<seq<nat>>, s: nat, n: nat, bs: nat)
    requires bs > 0 && SlotShort(tables, [s], [n], bs)
    ensures s < |tables| && |tables[s]| < Needed(n, bs)
  {
    hide Needed;
    var i :| 0 <= i < |[s]| && [s][i] < |tables| && |tables[[s][i]]| < Needed([n][i], bs);
  }

  /** A block somebody owns is not free. */
  lemma OwnedNotFree(cache: PagedKVCache, b: nat)
    requires cache.Valid() && Owners(cache.slotBlocks, cache.trie, b) > 0
    ensures |cache.freeBlocks| < cache.numBlocks
  {
    hide Distinct, EntriesOk, Counted;
    assert Accounted(b, cache.blockRefcount, cache.freeBlocks, cache.numBlocks, Owners(cache.slotBlocks, cache.trie, b));
    forall f | f in cache.freeBlocks ensures f < cache.numBlocks {
      assert Accounted(f, cache.blockRefcount, cache.freeBlocks, cache.numBlocks, Owners(cache.slotBlocks, cache.trie, f));
    }
    NoDupCard(cache.freeBlocks);
    SmallKeys(Elements(cache.freeBlocks) + {b}, cache.numBlocks);
  }

  /** A stored prompt of one block keeps that block off the free list. */
  lemma StoredBlockKept(cache: PagedKVCache, prompt: seq<Token>)
    requires cache.Valid() && cache.blockSize == |prompt| && At(cache.trie, prompt).Some?
    ensures |cache.freeBlocks| < cache.numBlocks && |cache.prefixBlockRefs| > 0
  {
    hide Distinct, EntriesOk;
    var e := EntryHere(cache, prompt);
    var b := e.blocks[0];
    assert b in e.blocks;
    OccursIn(e.blocks, b);
    EntryCounted(cache.trie, prompt);
    assert EntryRefs(At(cache.trie, prompt), b) <= Refs(cache.trie, b);
    assert Counted(b, cache.prefixBlockRefs, Refs(cache.trie, b));
    OwnedNotFree(cache, b);
    assert b in cache.prefixBlockRefs && |cache.prefixBlockRefs| == |cache.prefixBlockRefs.Keys|;
  }

  lemma EntryHere(cache: PagedKVCache, prompt: seq<Token>) returns (e: Entry)
    requires cache.Valid() && cache.blockSize == |prompt| && At(cache.trie, prompt).Some?
    ensures At(cache.trie, prompt) == Some(e) && |e.blocks| == 1
  {
    hide Balanced, Distinct;
    e := At(cache.trie, prompt).value;
    assert EntryOk(prompt, e, cache.blockSize);
    if |e.blocks| > 1 { MulMono(2, |e.blocks|, cache.blockSize); }
  }

  /** Nothing but prefixes of `prompt` is stored, so a prompt that starts otherwise matches nothing. */
  lemma Unmatched(was: Node, trie: Node, prompt: seq<Token>, table: seq<nat>, other: seq<Token>, matched: nat,
                  blocks: seq<nat>)
    requires StoredPath(was, trie, prompt, table) && (forall q :: At(was, q).None?)
    requires prompt != [] && other != [] && prompt[0] != other[0] && LongestMatch(trie, other, matched, blocks)
    ensures matched == 0 && blocks == []
  {
    forall k | 0 < k <= |other| ensures At(trie, other[..k]).None? {
      assert other[..k][0] == other[0];
    }
  }

  lemma WholePromptStored(trie: Node, prompt: seq<Token>)
    requires prompt != [] && AllStored(trie, prompt, |prompt|, |prompt|)
    ensures At(trie, prompt).Some?
  {
    assert prompt[..|prompt|] == prompt;
    DivOf(1, 0, |prompt|);
  }

  /** A request of one whole block comes and goes; its block stays with the trie. */
  method ServeOne(cache: PagedKVCache, prompt: seq<Token>) returns (ghost table: seq<nat>)
    requires cache.Valid() && cache.blockSize == |prompt| == 16 && cache.NoPressure(1) && cache.numSlots == 1
    requires cache.slotBlocks == [[]] && cache.freeSlots == [0] && cache.freeBlocks != []
    modifies cache
    ensures cache.Valid() && cache.slotBlocks == [[]] && cache.freeSlots == [0]
    ensures |cache.freeBlocks| < cache.numBlocks && StoredPath(old(cache.trie), cache.trie, prompt, table)
  {
    hide PagedKVCache.Valid, Demand, Fitted, GrownToNeed, OnlyGrown, StoredPath, AllStored, KeptAll, OldestGone,
         Restamped, UsedLast, SlotShort, At;
    DemandAlone(0, 16, 16);
    assert Sizes(cache.slotBlocks) == [0];
    var slot := cache.Alloc();
    var ok := cache.EnsureCapacity([0], [16]);
    assert Sizes(cache.slotBlocks)[0] == 1;
    table := cache.slotBlocks[0][..1];
    cache.StorePrefix(prompt, 0);
    WholePromptStored(cache.trie, prompt);
    cache.Free(0);
    StoredBlockKept(cache, prompt);
  }

  /** The pool a cache makes by default for one seat and a window of 32: two blocks of 16, one of
      them for prefixes. A finished prompt of 16 tokens leaves its block pinned, and the next
      prompt, of 17 other tokens and with the whole cache to itself, cannot get its two blocks. */
  method DefaultPoolRaises() returns (cache: PagedKVCache, slot: nat, ok: bool)
    ensures fresh(cache) && cache.Valid() && cache.numSlots == 1 && cache.numBlocks == Needed(32, 16) == 2
    ensures cache.maxPrefixBlocks == Some(1)
    ensures !ok && cache.freeBlocks == []
    ensures slot == 0 && |cache.slotBlocks| == 1 && |cache.slotBlocks[0]| < Needed(17, 16)
  {
    hide PagedKVCache.Valid, Demand, Fitted, GrownToNeed, OnlyGrown, Touched, SameRefs, LongestMatch, StoredPath, At;
    var first, second := Same(1, 16), Same(2, 17);
    cache := new PagedKVCache(16, 2, 1, None, Some(1), 0);
    EmptyTrie();
    ghost var table := ServeOne(cache, first);
    ghost var trie := cache.trie;
    var taken := cache.Alloc();
    slot := taken.value;
    var matched, blocks := cache.LookupPrefix(second);
    Unmatched(EMPTY, trie, first, table, second, matched, blocks);
    assert matched == 0;
    DemandAlone(0, 17, 16);
    assert Sizes(cache.slotBlocks) == [0];
    ok := cache.EnsureCapacity([slot], [17]);
    ShortAlone(cache.slotBlocks, 0, 17, 16);
    TablePerSlot(cache);
  }

  // ---- the scheduler -------------------------------------------------------------

  lemma DemandAtMost(have: seq<nat>, s: nat, n: nat, bs: nat)
    requires bs > 0 && s < |have|
    ensures Demand(have, [s], [n], bs) <= Needed(n, bs)
  {
    hide Needed;
    var slots: seq<nat>, lengths: seq<nat> := [s], [n];
    assert slots[1..] == [] && lengths[1..] == [];
  }

  /** The only block is gone once a table holds one. */
  lemma OnlyBlock(cache: PagedKVCache, s: nat)
    requires cache.Valid() && cache.numBlocks == 1 && s < |cache.slotBlocks| && cache.slotBlocks[s] != []
    ensures cache.freeBlocks == []
  {
    hide Distinct, EntriesOk, Counted;
    var b := cache.slotBlocks[s][0];
    OccursIn(cache.slotBlocks[s], b);
    TableRefsAtLeast(cache.slotBlocks, s, b);
    OwnedNotFree(cache, b);
  }

  /** One live sequence leaves one of two slots free. */
  lemma OtherSlot(st: State, a: nat)
    requires Listed(st) && Seated(st) && st.running == [a] && st.batch == [] && |st.w.tables| == 2
    ensures st.free != []
  {
    assert st.free == [] ==> Taken(st, 0) && Taken(st, 1);
  }

  /** Whoever runs alone on the only block holds it and one of the two slots. */
  lemma OnlyBlockTaken(engine: LLMEngine, a: nat)
    requires engine.Inv() && engine.running == [a] && engine.cache.numBlocks == 1 && engine.cache.numSlots == 2
    requires a in engine.seqs && !engine.seqs[a].spoiled && engine.seqs[a].length > 0
    ensures engine.cache.freeBlocks == [] && engine.cache.freeSlots != []
  {
    hide PagedKVCache.Valid, RowOk, WorldOk, Promised, Seated, LLMEngine.Sized, FinishReason;
    assert a in engine.running;
    engine.ContentInvariant(a);
    engine.ShapeHere([], 0, Live, Admitted);
    HoldsBlock(engine.Here(), engine.seqs[a]);
    OnlyBlock(engine.cache, engine.seqs[a].slot.value);
    OtherSlot(engine.Snapshot([], 0, Live, Admitted), a);
  }

  lemma HoldsBlock(w: World, q: Sequence)
    requires ReadsOwnTokens(w, q) && q.length > 0
    ensures w.tables[q.slot.value] != []
  {
  }

  /** The first token of a request that wants more leaves it running. */
  lemma FirstOfMore(net: Net, eos: Option<Token>, was: Table, now: Table, a: nat)
    requires exists mid: Table :: FilledSince(net, was, mid, [a], 1) && Retired(eos, mid, now)
    requires a in was && was[a].prompt != [] && was[a].outputs == []
    requires was[a].maxTokens > 1 && was[a].maxLen.None? && was[a].ignoreEos
    ensures a in now && now[a] == Prefilled(was[a], Next(net, was[a].prompt)) && was[a].status == Running
  {
    hide Next, FinishReason;
    var mid: Table :| FilledSince(net, was, mid, [a], 1) && Retired(eos, mid, now);
    assert FirstToken(net, was[[a][0]], mid[[a][0]]);
    assert !mid[a].IsFinished(eos) by { NotFinished(mid[a], eos); }
  }

  lemma NotFinished(q: Sequence, eos: Option<Token>)
    requires |q.outputs| < q.maxTokens && q.maxLen.None? && q.ignoreEos
    ensures !q.IsFinished(eos)
  {
  }

  lemma OnlyVictim(seqs: Table, a: nat, moved: seq<nat>, left: seq<nat>)
    requires Evicted(seqs, [a], moved, left) && |moved| == 1
    ensures moved == [a] && left == []
  {
    var mid, i :| Evicted(seqs, [a], Init(moved), mid) && EvictedNext(seqs, mid, i, Last(moved), left);
    assert mid == [a] && moved == [Last(moved)];
  }

  /** What the requests of these runs look like. */
  ghost predicate Fresh(q: Sequence) {
    && q.prompt == [0] && q.outputs == [] && q.maxTokens == 5 && q.maxLen.None? && q.ignoreEos
    && q.preempts == 0 && !q.spoiled
  }

  /** With two requests waiting for one seat the first is prefilled and stays. */
  method FirstTakesSeat(engine: LLMEngine, a: nat, b: nat)
    requires engine.Inv() && engine.waiting == [a, b] && engine.running == [] && engine.maxNumSeqs == 1
    requires a in engine.seqs && Fresh(engine.seqs[a])
    requires |engine.cache.freeBlocks| == 1 && engine.cache.numBlocks == 1 && engine.cache.numSlots == 2
    requires engine.cache.blockSize == 16 && engine.cache.prefixBlockRefs == map[]
    requires a != b && engine.cache.maxPrefixBlocks == Some(0)
    modifies engine, engine.cache
    ensures engine.Inv() && engine.waiting == [b] && engine.running == [a] && |engine.cache.prefixBlockRefs| == 0
    ensures a in engine.seqs && engine.seqs[a].preempts == 0 && !engine.seqs[a].spoiled && engine.seqs[a].length == 1
  {
    hide LLMEngine.Inv, LLMEngine.Mid, PagedKVCache.Valid, Demand, FilledSince, Retired, Evicted, AllEvolve, TokenSum,
         Work, WholeBlocks, PromptsStored, AllWorked, PagedKVCache.NoPressure;
    var batch, isPrefill, moved := engine.Schedule();
    assert moved == [] && isPrefill;
    LoneHead(a, b, moved, batch, engine.waiting);
    engine.SeatsHere(batch, 0, Live, Admitted);
    assert batch[0] == a;
    DemandAtMost(Sizes(engine.cache.slotBlocks), engine.seqs[a].slot.value, 1, 16);
    assert SlotsOf(engine.seqs, batch) == [engine.seqs[a].slot.value] && PromptsOf(engine.seqs, batch) == [1];
    ghost var was := engine.seqs;
    var ok := engine.PrefillStep(batch);
    FirstOfMore(engine.net, engine.eos, was, engine.seqs, a);
    engine.KeptHere(a);
    AloneOnSeat(engine, a);
  }

  lemma LoneHead(a: nat, b: nat, more: seq<nat>, batch: seq<nat>, rest: seq<nat>)
    requires [a, b] + more == batch + rest && more == [] && |batch| == 1
    ensures batch == [a] && rest == [b]
  {
    assert batch[0] == ([a, b] + more)[0] && rest[0] == ([a, b] + more)[1];
  }

  lemma AloneOnSeat(engine: LLMEngine, a: nat)
    requires engine.Inv() && engine.maxNumSeqs == 1 && a in engine.running
    ensures engine.running == [a]
  {
    hide LLMEngine.Mid;
  }

  lemma PreemptCounts(q: Sequence, r: Sequence)
    requires Rescheduled(q, r, true)
    ensures r.preempts == q.preempts + 1
  {
  }

  /** Two requests of one token on an engine with one seat and two slots over a single block. The
      first runs and the second waits, because the seat is taken; and that is block pressure. */
  method ReachCap() returns (engine: LLMEngine, a: nat, b: nat)
    ensures fresh(engine) && fresh(engine.cache) && engine.Inv() && engine.maxNumSeqs == 1
    ensures a != b && engine.running == [a] && engine.waiting == [b] && a in engine.seqs && engine.Room()
    ensures engine.Pressed()
  {
    hide LLMEngine.Inv, LLMEngine.Mid, PagedKVCache.Valid;
    var cache := new PagedKVCache(16, 1, 2, None, Some(0), 0);
    engine := new LLMEngine(Counting(), None, 1, 64, None, 64, 1, Some(false), cache, None);
    var first := engine.AddRequest([0], 5, true);
    var second := engine.AddRequest([0], 5, true);
    a, b := first.value, second.value;
    FirstTakesSeat(engine, a, b);
    OnlyBlockTaken(engine, a);
  }

  /** With the only seat taken, a request waiting, a slot free and the pool dry, the scheduler
      preempts the running sequence and admits the waiting one: the two change places. */
  method SwapsAtCap(engine: LLMEngine, a: nat, b: nat) returns (batch: seq<nat>)
    requires engine.Inv() && engine.maxNumSeqs == 1 && a in engine.seqs && engine.Room()
    requires engine.running == [a] && engine.waiting == [b] && engine.Pressed()
    modifies engine, engine.cache
    ensures batch == [b] && engine.running == [] && engine.waiting == [a]
    ensures a in engine.seqs && engine.seqs[a].preempts == old(engine.seqs)[a].preempts + 1
  {
    hide LLMEngine.Inv, LLMEngine.Mid, PagedKVCache.Valid, Evicted, AllEvolve, TokenSum, Preempt;
    ghost var was := engine.seqs;
    var isPrefill;
    ghost var moved;
    batch, isPrefill, moved := engine.Schedule();
    OnlyVictim(was, a, moved, engine.running);
    assert isPrefill;
    PreemptCounts(was[a], engine.seqs[a]);
    LoneHead(b, a, [], batch, engine.waiting);
  }

  lemma LoneBlocks(seqs: Table, a: nat)
    requires a in seqs && |seqs[a].prompt| == 16
    ensures WholeBlocks(seqs, [a], 16) == 1
  {
    assert [a][1..] == [];
  }

  /** A request for one token is over with its prefill. */
  lemma FirstAndLast(net: Net, eos: Option<Token>, was: Table, now: Table, a: nat)
    requires exists mid: Table :: FilledSince(net, was, mid, [a], 1) && Retired(eos, mid, now)
    requires a in was && was[a].outputs == [] && was[a].maxTokens == 1
    ensures a in now && now[a].IsFinished(eos)
  {
    hide Next;
    var mid: Table :| FilledSince(net, was, mid, [a], 1) && Retired(eos, mid, now);
    assert FirstToken(net, was[[a][0]], mid[[a][0]]);
    assert |mid[a].outputs| == 1 && mid[a].IsFinished(eos);
  }

  /** The lone request is served and its prompt fills the pool, which the trie keeps. */
  method ServeLone(engine: LLMEngine, a: nat)
    requires engine.Inv() && engine.waiting == [a] && engine.running == [] && engine.maxNumSeqs == 1
    requires a in engine.seqs && |engine.seqs[a].prompt| == 16
    requires engine.seqs[a].outputs == [] && engine.seqs[a].maxTokens == 1
    requires |engine.cache.freeBlocks| == 1 && engine.cache.numBlocks == 1 && engine.cache.numSlots == 1
    requires engine.cache.blockSize == 16 && engine.cache.prefixBlockRefs == map[] && engine.cache.NoPressure(1)
    requires engine.cache.maxPrefixEntries.None?
    modifies engine, engine.cache
    ensures engine.Inv() && engine.waiting == [] && engine.running == [] && !engine.Room()
  {
    hide LLMEngine.Inv, LLMEngine.Mid, PagedKVCache.Valid, Demand, FilledSince, Retired, Evicted, AllEvolve, TokenSum,
         Work, WholeBlocks, AllWorked, AllStored, FinishReason, AllShare, BatchStored, LLMEngine.PromptShort;
    var batch, isPrefill, moved := engine.Schedule();
    assert moved == [] && isPrefill;
    OneHead(a, moved, batch, engine.waiting);
    engine.SeatsHere(batch, 0, Live, Admitted);
    assert batch[0] == a;
    DemandAtMost(Sizes(engine.cache.slotBlocks), engine.seqs[a].slot.value, 16, 16);
    assert SlotsOf(engine.seqs, batch) == [engine.seqs[a].slot.value] && PromptsOf(engine.seqs, batch) == [16];
    LoneBlocks(engine.seqs, a);
    ghost var was := engine.seqs;
    var ok := engine.PrefillStep(batch);
    FirstAndLast(engine.net, engine.eos, was, engine.seqs, a);
    ValidBetween(engine);
    WholePromptStored(engine.cache.trie, was[a].prompt);
    StoredBlockKept(engine.cache, was[a].prompt);
    NobodyRuns(engine, a);
  }

  lemma OneHead(a: nat, more: seq<nat>, batch: seq<nat>, rest: seq<nat>)
    requires [a] + more == batch + rest && more == [] && |batch| == 1
    ensures batch == [a] && rest == []
  {
    assert batch[0] == ([a] + more)[0] && |[a] + more| == 1;
  }

  lemma ValidBetween(engine: LLMEngine)
    requires engine.Inv()
    ensures engine.cache.Valid()
  {
    hide PagedKVCache.Valid, StateOk;
  }

  lemma HeadIn(s: seq<nat>)
    ensures s != [] ==> s[0] in s
  {
  }

  lemma NobodyRuns(engine: LLMEngine, a: nat)
    requires engine.Inv() && (forall id :: id in engine.running ==> id == a)
    requires a in engine.seqs && engine.seqs[a].IsFinished(engine.eos)
    ensures engine.running == []
  {
    hide LLMEngine.Mid, FinishReason;
    HeadIn(engine.running);
  }

  /** Nothing runs, a request waits, and the trie pins the whole pool. */
  predicate Starved(engine: LLMEngine)
    reads engine, engine.cache
  {
    engine.running == [] && engine.waiting != [] && !engine.Room()
  }

  /** A pool of one block whose prefix budget is as large: once a finished prompt is stored there
      is no free block, and nothing runs that could give one back while a request waits. */
  method ReachStarvation() returns (engine: LLMEngine, b: nat)
    ensures fresh(engine) && fresh(engine.cache) && engine.Inv() && Starved(engine) && engine.waiting == [b]
    ensures engine.maxNumSeqs == engine.cache.numSlots == engine.cache.numBlocks == 1
  {
    hide LLMEngine.Inv, LLMEngine.Mid, PagedKVCache.Valid;
    var cache := new PagedKVCache(16, 1, 1, None, Some(1), 0);
    engine := new LLMEngine(Counting(), None, 1, 64, None, 64, 1, Some(false), cache, None);
    var first := engine.AddRequest(Same(1, 16), 1, true);
    ServeLone(engine, first.value);
    var second := engine.AddRequest([0], 5, true);
    b := second.value;
  }

  /** A starved engine admits nobody and stays starved, so it does at every later step too. */
  method StaysStarved(engine: LLMEngine) returns (batch: seq<nat>)
    requires engine.Inv() && Starved(engine)
    modifies engine, engine.cache
    ensures batch == [] && engine.Inv() && Starved(engine) && engine.waiting == old(engine.waiting)
  {
    hide LLMEngine.Mid, PagedKVCache.Valid, Evicted, AllEvolve, TokenSum;
    var isPrefill;
    ghost var moved;
    batch, isPrefill, moved := engine.Schedule();
    assert moved == [] && [] + engine.waiting == engine.waiting && old(engine.waiting) + moved == old(engine.waiting);
  }
}
