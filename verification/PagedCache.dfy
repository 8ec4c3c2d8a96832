/** The paged K/V allocator with its radix prefix cache. Blocks have two kinds of owner, the
    slot tables and the trie entries; `Valid` says every block is either free exactly once or
    counted exactly. */
module PagedCache {
  import opened Options
  import opened Lists
  import opened Network
  import opened PrefixTrie
  import opened Blocks
  import opened PagedForward

  /** An entry at `path` names one block per `bs` tokens of it, all different. */
  ghost predicate EntryOk(path: seq<Token>, e: Entry, bs: nat) {
    path != [] && e.numTokens == |path| == |e.blocks| * bs && NoDup(e.blocks)
  }

  ghost predicate EntriesOk(trie: Node, bs: nat, lru: nat) {
    forall q :: At(trie, q).Some? ==> EntryOk(q, At(trie, q).value, bs) && At(trie, q).value.lru <= lru
  }

  class PagedKVCache {
    const blockSize: nat
    const numBlocks: nat
    const numSlots: nat
    const maxPrefixEntries: Option<nat>
    const maxPrefixBlocks: Option<nat>

    var freeBlocks: seq<nat>
    var freeSlots: seq<nat>
    var slotBlocks: seq<seq<nat>>
    var blockRefcount: map<nat, nat>
    var prefixBlockRefs: map<nat, nat>
    var trie: Node
    var lru: nat
    var prefixEntryCount: int
    /** The physical K/V rows, per layer and flat slot. */
    var store: Store

    /** Reference-count conservation and the shape of the tables. */
    ghost predicate Valid()
      reads this
    {
      && blockSize > 0 && |slotBlocks| == numSlots
      && NoDup(freeBlocks) && NoDup(freeSlots)
      && (forall s :: s in freeSlots ==> s < numSlots && slotBlocks[s] == [])
      && (forall s :: 0 <= s < numSlots ==> NoDup(slotBlocks[s]))
      && Balanced(blockRefcount, freeBlocks, numBlocks, slotBlocks, trie)
      && (forall b: nat :: Counted(b, prefixBlockRefs, Refs(trie, b)))
      && Distinct(trie) && trie.entry.None? && prefixEntryCount == Count(trie)
      && EntriesOk(trie, blockSize, lru)
    }

    constructor (blockSize: nat, numBlocks: nat, numSlots: nat,
                 maxPrefixEntries: Option<nat>, maxPrefixBlocks: Option<nat>, layers: nat)
      requires blockSize > 0
      ensures Valid() && slotBlocks == seq(numSlots, s => []) && trie == EMPTY
      ensures freeBlocks == seq(numBlocks, b => b) && freeSlots == seq(numSlots, s => s)
      ensures forall s :: 0 <= s < numSlots ==> s in freeSlots
      ensures blockRefcount == map[] && prefixBlockRefs == map[] && prefixEntryCount == 0
      ensures store == seq(layers, l => map[])
      ensures this.blockSize == blockSize && this.numBlocks == numBlocks && this.numSlots == numSlots
      ensures this.maxPrefixEntries == maxPrefixEntries && this.maxPrefixBlocks == maxPrefixBlocks
    {
      this.blockSize, this.numBlocks, this.numSlots := blockSize, numBlocks, numSlots;
      this.maxPrefixEntries, this.maxPrefixBlocks := maxPrefixEntries, maxPrefixBlocks;
      freeBlocks := seq(numBlocks, b => b);
      freeSlots := seq(numSlots, s => s);
      slotBlocks := seq(numSlots, s => []);
      blockRefcount, prefixBlockRefs, trie, lru, prefixEntryCount := map[], map[], EMPTY, 0, 0;
      store := seq(layers, l => map[]);
      new;
      EmptyTrie();
      AllFree(this.freeBlocks, numBlocks, slotBlocks);
      forall s | 0 <= s < numSlots ensures s in this.freeSlots {
        assert this.freeSlots[s] == s;
      }
    }

    method Alloc() returns (r: Option<nat>)
      requires Valid()
      modifies this`freeSlots
      ensures Valid()
      ensures old(freeSlots) == [] ==> r == None && freeSlots == old(freeSlots)
      ensures old(freeSlots) != [] ==> r == Some(Last(old(freeSlots))) && freeSlots == Init(old(freeSlots))
      ensures r.Some? ==> r.value < numSlots && slotBlocks[r.value] == [] && r.value !in freeSlots
    {
      if freeSlots == [] { return None; }
      r := Some(Last(freeSlots));
      assert Last(freeSlots) in freeSlots && forall s :: s in Init(freeSlots) ==> s in freeSlots;
      freeSlots := Init(freeSlots);
    }

    function HasFreeSlot(): bool
      reads this
    {
      freeSlots != []
    }

    function HasFreeBlock(): bool
      reads this
    {
      freeBlocks != []
    }

    /** Take one more reference to each of `blocks`, all of which have an owner. */
    method RetainBlocks(blocks: seq<nat>, ghost owned: nat -> nat)
      requires forall b :: b in blocks ==> owned(b) > 0
      requires forall b: nat :: Accounted(b, blockRefcount, freeBlocks, numBlocks, owned(b))
      modifies this`blockRefcount
      ensures forall b: nat :: Accounted(b, blockRefcount, freeBlocks, numBlocks, owned(b) + Occurs(blocks, b))
    {
      for k := 0 to |blocks|
        invariant forall b: nat ::
          Accounted(b, blockRefcount, freeBlocks, numBlocks, owned(b) + Occurs(blocks[..k], b))
      {
        var blk := blocks[k];
        assert blk in blocks;
        RetainAccounted(blockRefcount, freeBlocks, numBlocks, blk, owned(blk) + Occurs(blocks[..k], blk));
        blockRefcount := Incremented(blockRefcount, blk, 1);
        assert Init(blocks[..k + 1]) == blocks[..k] && Last(blocks[..k + 1]) == blk;
      }
      assert blocks[..|blocks|] == blocks;
    }

    /** Count a new prefix entry's blocks against the budget. */
    method PinBlocks(blocks: seq<nat>, ghost pinned: nat -> nat)
      requires forall b: nat :: Counted(b, prefixBlockRefs, pinned(b))
      modifies this`prefixBlockRefs
      ensures forall b: nat :: Counted(b, prefixBlockRefs, pinned(b) + Occurs(blocks, b))
    {
      for k := 0 to |blocks|
        invariant forall b: nat :: Counted(b, prefixBlockRefs, pinned(b) + Occurs(blocks[..k], b))
      {
        var blk := blocks[k];
        CountedStep(prefixBlockRefs, blk, pinned(blk) + Occurs(blocks[..k], blk));
        prefixBlockRefs := Incremented(prefixBlockRefs, blk, 0);
        assert Init(blocks[..k + 1]) == blocks[..k] && Last(blocks[..k + 1]) == blk;
      }
      assert blocks[..|blocks|] == blocks;
    }

    /** Drop one reference to each of `blocks`; a block whose last reference goes is free. */
    method ReleaseBlocks(blocks: seq<nat>, ghost others: nat -> nat)
      requires NoDup(freeBlocks)
      requires forall b: nat :: Accounted(b, blockRefcount, freeBlocks, numBlocks, others(b) + Occurs(blocks, b))
      modifies this`blockRefcount, this`freeBlocks
      ensures NoDup(freeBlocks) && PutBack(old(freeBlocks), freeBlocks, blocks)
      ensures forall b: nat :: Accounted(b, blockRefcount, freeBlocks, numBlocks, others(b))
    {
      hide NoDup, Accounted, Recycled, Decremented, PutBack;
      assert blocks[0..] == blocks && blocks[..0] == [];
      NonePutBack(freeBlocks);
      for k := 0 to |blocks|
        invariant NoDup(freeBlocks) && PutBack(old(freeBlocks), freeBlocks, blocks[..k])
        invariant forall b: nat :: Accounted(b, blockRefcount, freeBlocks, numBlocks, others(b) + Occurs(blocks[k..], b))
      {
        var blk := blocks[k];
        forall b: nat ensures Occurs(blocks[k..], b) == (if b == blk then 1 else 0) + Occurs(blocks[k + 1..], b) {
          OccursFirst(blocks[k..], b);
          assert blocks[k..][1..] == blocks[k + 1..];
        }
        ReleaseAccounted(blockRefcount, freeBlocks, numBlocks, blk, others(blk) + Occurs(blocks[k..], blk));
        OnePutBack(old(freeBlocks), freeBlocks, blockRefcount, blocks[..k], blk);
        assert blocks[..k + 1] == blocks[..k] + [blk];
        freeBlocks, blockRefcount := Recycled(blockRefcount, freeBlocks, blk), Decremented(blockRefcount, blk, 1);
      }
      assert blocks[..|blocks|] == blocks;
    }

    /** Recycle a sequence's slot: its own references go, the trie's and other slots' stay. */
    method Free(slot: nat)
      requires Valid() && slot < numSlots && slot !in freeSlots
      modifies this`freeBlocks, this`freeSlots, this`slotBlocks, this`blockRefcount
      ensures Valid()
      ensures slotBlocks == old(slotBlocks)[slot := []] && freeSlots == old(freeSlots) + [slot]
      ensures PutBack(old(freeBlocks), freeBlocks, old(slotBlocks)[slot])
    {
      hide PutBack;
      ghost var tables, kept := slotBlocks[slot := []], trie;
      ghost var others := (b: nat) => Owners(tables, kept, b);
      forall b: nat ensures Owners(slotBlocks, trie, b) == others(b) + Occurs(slotBlocks[slot], b) {
        DropTable(slotBlocks, trie, slot, b);
      }
      ReleaseBlocks(slotBlocks[slot], others);
      assert forall b: nat :: others(b) == Owners(tables, kept, b);
      slotBlocks := slotBlocks[slot := []];
      freeSlots := freeSlots + [slot];
    }

    /** Grow one slot's table to hold `n` tokens; false is the "no free blocks" error. */
    method GrowSlot(slot: nat, n: nat) returns (ok: bool, ghost more: seq<nat>)
      requires Valid() && slot < numSlots && slot !in freeSlots
      modifies this`freeBlocks, this`slotBlocks, this`blockRefcount
      ensures Valid()
      ensures slotBlocks == old(slotBlocks)[slot := old(slotBlocks)[slot] + more]
      ensures Grown(old(slotBlocks), slotBlocks, trie, more)
      ensures
        var have, need := |old(slotBlocks)[slot]|, Needed(n, blockSize);
        && (ok <==> need <= have + |old(freeBlocks)|)
        && (ok ==> |slotBlocks[slot]| == if need <= have then have else need)
        && (!ok ==> freeBlocks == [] && have <= |slotBlocks[slot]| < need)
      ensures TakenOff(old(freeBlocks), freeBlocks, more)
    {
      hide TakenOff, NoDup, Counted, EntriesOk, Distinct;
      var need := Needed(n, blockSize);
      more := [];
      ok := true;
      NoneTakenOff(freeBlocks);
      assert slotBlocks[slot] + [] == slotBlocks[slot];
      while |slotBlocks[slot]| < need
        invariant Valid()
        invariant slotBlocks == old(slotBlocks)[slot := old(slotBlocks)[slot] + more]
        invariant Grown(old(slotBlocks), slotBlocks, trie, more)
        invariant TakenOff(old(freeBlocks), freeBlocks, more)
        invariant more != [] ==> |slotBlocks[slot]| <= need
      {
        AllTakenOff(old(freeBlocks), freeBlocks, more);
        if freeBlocks == [] { return false, more; }
        OneTakenOff(old(freeBlocks), freeBlocks, more);
        var blk := Last(freeBlocks);
        assert slotBlocks[slot] + [blk] == old(slotBlocks)[slot] + (more + [blk]);
        TakeBlock(blockRefcount, freeBlocks, numBlocks, slotBlocks, trie, slot);
        freeBlocks := Init(freeBlocks);
        slotBlocks := slotBlocks[slot := slotBlocks[slot] + [blk]];
        blockRefcount := blockRefcount[blk := 1];
        more := more + [blk];
      }
      AllTakenOff(old(freeBlocks), freeBlocks, more);
    }

    /** Grow every listed slot, to exactly what it needs. The error comes exactly when the slots
        need more blocks than are free; it leaves the pool consistent, dry, and one slot short. */
    method EnsureCapacity(slots: seq<nat>, lengths: seq<nat>) returns (ok: bool)
      requires Valid() && |slots| == |lengths|
      requires forall i :: 0 <= i < |slots| ==> slots[i] < numSlots && slots[i] !in freeSlots
      modifies this`freeBlocks, this`slotBlocks, this`blockRefcount
      ensures Valid()
      ensures OnlyGrown(old(slotBlocks), slotBlocks, trie, slots)
      ensures GrownToNeed(old(slotBlocks), slotBlocks, slots, lengths, blockSize)
      ensures ok <==> Demand(Sizes(old(slotBlocks)), slots, lengths, blockSize) <= |old(freeBlocks)|
      ensures ok ==> Sizes(slotBlocks) == Fitted(Sizes(old(slotBlocks)), slots, lengths, blockSize)
      ensures ok ==> |freeBlocks| + Demand(Sizes(old(slotBlocks)), slots, lengths, blockSize) == |old(freeBlocks)|
      ensures ok ==> forall i :: 0 <= i < |slots| ==> lengths[i] <= |slotBlocks[slots[i]]| * blockSize
      ensures !ok ==> freeBlocks == [] && SlotShort(slotBlocks, slots, lengths, blockSize)
    {
      hide Balanced, NoDup, Counted, Distinct, EntriesOk, Grown, OnlyGrown, GrownToNeed, SlotShort, Demand, Fitted;
      ghost var first, had := slotBlocks, |freeBlocks|;
      assert slots[0..] == slots && lengths[0..] == lengths;
      GrowthStart(first, trie, slots, lengths, blockSize);
      for i := 0 to |slots|
        invariant Valid()
        invariant OnlyGrown(old(slotBlocks), slotBlocks, trie, slots)
        invariant GrownToNeed(first, slotBlocks, slots, lengths, blockSize)
        invariant Demand(Sizes(first), slots, lengths, blockSize) + |freeBlocks|
               == had + Demand(Sizes(slotBlocks), slots[i..], lengths[i..], blockSize)
        invariant Fitted(Sizes(first), slots, lengths, blockSize)
               == Fitted(Sizes(slotBlocks), slots[i..], lengths[i..], blockSize)
        invariant forall j :: 0 <= j < i ==> lengths[j] <= |slotBlocks[slots[j]]| * blockSize
      {
        ghost var before := slotBlocks;
        ghost var more;
        ok, more := GrowSlot(slots[i], lengths[i]);
        OnlyGrownStep(old(slotBlocks), before, slotBlocks, trie, slots, slots[i], more);
        DemandStep(before, slotBlocks, slots, lengths, blockSize, i, more);
        GrownStep(first, before, slotBlocks, slots, lengths, blockSize, i, more);
        if !ok {
          ShortAt(slotBlocks, slots, lengths, blockSize, i);
          return;
        }
        MulMono(Needed(lengths[i], blockSize), |slotBlocks[slots[i]]|, blockSize);
        forall j | 0 <= j < i ensures lengths[j] <= |slotBlocks[slots[j]]| * blockSize {
          MulMono(|before[slots[j]]|, |slotBlocks[slots[j]]|, blockSize);
        }
      }
      assert slots[|slots|..] == [] && lengths[|slots|..] == [];
      NoDemand(Sizes(slotBlocks), blockSize);
      ok := true;
    }

    /** Point a newly allocated slot at blocks the trie holds. */
    method ShareBlocks(slot: nat, blocks: seq<nat>)
      requires Valid() && slot < numSlots && slot !in freeSlots && slotBlocks[slot] == []
      requires NoDup(blocks) && forall b :: b in blocks ==> Owners(slotBlocks, trie, b) > 0
      modifies this`slotBlocks, this`blockRefcount
      ensures Valid()
      ensures slotBlocks == old(slotBlocks)[slot := blocks]
    {
      ghost var was, kept := slotBlocks, trie;
      RetainBlocks(blocks, (b: nat) => Owners(was, kept, b));
      slotBlocks := slotBlocks[slot := blocks];
      forall b: nat ensures Owners(slotBlocks, trie, b) == Owners(was, trie, b) + Occurs(blocks, b) {
        ShareTable(was, trie, slot, blocks, b);
      }
    }

    /** Drop an evicted entry's references to `blocks` from the budget count. */
    method UnpinBlocks(blocks: seq<nat>, ghost others: nat -> nat)
      requires forall b: nat :: Counted(b, prefixBlockRefs, others(b) + Occurs(blocks, b))
      modifies this`prefixBlockRefs
      ensures forall b: nat :: Counted(b, prefixBlockRefs, others(b))
    {
      hide Counted, Decremented;
      assert blocks[0..] == blocks;
      for k := 0 to |blocks|
        invariant forall b: nat :: Counted(b, prefixBlockRefs, others(b) + Occurs(blocks[k..], b))
      {
        var blk := blocks[k];
        forall b: nat ensures Occurs(blocks[k..], b) == (if b == blk then 1 else 0) + Occurs(blocks[k + 1..], b) {
          OccursFirst(blocks[k..], b);
          assert blocks[k..][1..] == blocks[k + 1..];
        }
        CountedStep(prefixBlockRefs, blk, others(blk) + Occurs(blocks[k..], blk));
        prefixBlockRefs := Decremented(prefixBlockRefs, blk, 0);
      }
    }

    /** Evict the entry with the oldest stamp, of several on one path the shortest; false when there
        is none. */
    method EvictOnePrefix() returns (evicted: bool, ghost path: seq<Token>)
      requires Valid()
      modifies this`trie, this`prefixEntryCount, this`prefixBlockRefs, this`blockRefcount, this`freeBlocks
      ensures Valid()
      ensures evicted <==> exists q :: At(old(trie), q).Some?
      ensures !evicted ==> trie == old(trie) && prefixBlockRefs == old(prefixBlockRefs)
      ensures evicted ==> LeastUsed(old(trie), path) && Replaced(old(trie), trie, path, None)
      ensures forall q :: Has(old(trie), q) && At(old(trie), q).None? ==> Has(trie, q)
    {
      ScanRoot(trie);
      var oldest := Scan(trie.kids, [], None);
      if oldest.None? { return false, []; }
      evicted, path := true, oldest.value.path;
      AtHas(trie, oldest.value.path);
      var entry := At(trie, oldest.value.path).value;
      ghost var was, now := trie, Evict(trie, oldest.value.path);
      EvictReplaced(trie, oldest.value.path);
      forall b: nat
        ensures Owners(slotBlocks, was, b) == Owners(slotBlocks, now, b) + Occurs(entry.blocks, b)
        ensures Refs(was, b) == Refs(now, b) + Occurs(entry.blocks, b)
      {
        assert EntryRefs(At(was, path), b) == Occurs(entry.blocks, b);
        assert Refs(now, b) + EntryRefs(At(was, path), b) == Refs(was, b) + EntryRefs(None, b);
      }
      forall q | Has(was, q) && At(was, q).None? ensures Has(now, q) {
        EvictKeepsNode(was, path, q);
      }
      ghost var tables := slotBlocks;
      UnpinBlocks(entry.blocks, (b: nat) => Refs(now, b));
      ReleaseBlocks(entry.blocks, (b: nat) => Owners(tables, now, b));
      prefixEntryCount := prefixEntryCount - 1;
      trie := Evict(trie, oldest.value.path);
      assert forall q :: At(trie, q).Some? ==> At(trie, q) == At(was, q);
    }

    ghost predicate WithinBudget()
      reads this
    {
      maxPrefixBlocks.Some? ==> |prefixBlockRefs| <= maxPrefixBlocks.value
    }

    /** Evict oldest entries until the trie pins no more distinct blocks than allowed, and none
        beyond that. */
    method EnforcePrefixBudget()
      requires Valid()
      modifies this`trie, this`prefixEntryCount, this`prefixBlockRefs, this`blockRefcount, this`freeBlocks
      ensures Valid() && WithinBudget() && Shrunk(old(trie), trie) && OldestGone(old(trie), trie)
      ensures old(WithinBudget()) ==> trie == old(trie)
      ensures Enforced(old(trie), trie, maxPrefixBlocks)
    {
      hide Balanced, NoDup, EntriesOk, Counted, Shrunk, OldestGone, Replaced, LeastUsed, PinsOver;
      NothingGone(trie);
      if maxPrefixBlocks.None? { return; }
      while |prefixBlockRefs| > maxPrefixBlocks.value
        invariant Valid() && Shrunk(old(trie), trie) && OldestGone(old(trie), trie)
        invariant old(WithinBudget()) ==> trie == old(trie) && prefixBlockRefs == old(prefixBlockRefs)
        invariant Enforced(old(trie), trie, maxPrefixBlocks)
        decreases Count(trie)
      {
        ghost var before := trie;
        ghost var path;
        var evicted;
        PinsMany(prefixBlockRefs, trie, maxPrefixBlocks.value);
        evicted, path := EvictOnePrefix();
        if !evicted {
          assert forall q :: !At(trie, q).Some?;
          break;
        }
        assert LastEvicted(old(trie), before, path, trie);
        OldestStep(old(trie), before, trie, path);
        ReplacedCount(before, trie, path);
        ShrunkStep(old(trie), before, trie, path);
      }
      NothingPinned(prefixBlockRefs, trie);
    }

    /** The longest stored prefix of `tokens` and its blocks; every entry on the way is
        stamped as used now. */
    method LookupPrefix(tokens: seq<Token>) returns (matched: nat, blocks: seq<nat>)
      requires Valid()
      modifies this`trie, this`lru
      ensures Valid() && lru == old(lru) + 1
      ensures LongestMatch(old(trie), tokens, matched, blocks)
      ensures Touched(old(trie), trie, tokens, lru) && SameRefs(old(trie), trie)
    {
      hide Balanced, Counted, NoDup, Has;
      matched, blocks := 0, [];
      lru := lru + 1;
      var i := 0;
      TouchNothing(trie, tokens, lru);
      while i < |tokens|
        invariant Valid() && i <= |tokens| && lru == old(lru) + 1
        invariant Touched(old(trie), trie, tokens[..i], lru) && SameRefs(old(trie), trie)
        invariant LongestMatch(old(trie), tokens[..i], matched, blocks)
      {
        if !Has(trie, tokens[..i + 1]) { break; }
        var here := tokens[..i + 1];
        ghost var before := trie;
        var e := At(trie, here);
        if e.Some? && i + 1 >= e.value.numTokens {
          matched, blocks := e.value.numTokens, e.value.blocks;
          FillReplaced(trie, here, Some(e.value.(lru := lru)));
          trie := Fill(trie, here, Some(e.value.(lru := lru)));
          StampSame(before, trie, here, lru);
          BalancedSame(blockRefcount, freeBlocks, numBlocks, slotBlocks, before, trie);
        }
        TouchStep(old(trie), before, trie, tokens, i, lru);
        MatchStep(old(trie), tokens, i, matched, blocks);
        i := i + 1;
      }
      LookupDone(old(trie), trie, tokens, i, lru, matched, blocks);
    }

    /** Put a new entry on an existing node and count its references. */
    method AddEntry(here: seq<Token>, blocks: seq<nat>)
      requires Valid() && Has(trie, here) && At(trie, here).None?
      requires EntryOk(here, Entry(blocks, |here|, lru), blockSize)
      requires forall b :: b in blocks ==> TableRefs(slotBlocks, b) > 0
      modifies this`trie, this`prefixEntryCount, this`prefixBlockRefs, this`blockRefcount
      ensures Valid() && prefixEntryCount == old(prefixEntryCount) + 1
      ensures Replaced(old(trie), trie, here, Some(Entry(blocks, |here|, lru)))
    {
      var e := Entry(blocks, |here|, lru);
      FillReplaced(trie, here, Some(e));
      ghost var tables, was, now := slotBlocks, trie, Fill(trie, here, Some(e));
      forall b: nat
        ensures Refs(now, b) == Refs(was, b) + Occurs(blocks, b)
        ensures Owners(tables, now, b) == Owners(tables, was, b) + Occurs(blocks, b)
      {
        assert Refs(now, b) + EntryRefs(At(was, here), b) == Refs(was, b) + EntryRefs(Some(e), b);
      }
      RetainBlocks(blocks, (b: nat) => Owners(tables, was, b));
      PinBlocks(blocks, (b: nat) => Refs(was, b));
      prefixEntryCount := prefixEntryCount + 1;
      trie := Fill(trie, here, Some(e));
    }

    /** One block-aligned stop of the store walk: add the entry, evicting first when the
        entry limit is reached, or refresh its stamp. */
    method StoreEntry(here: seq<Token>, blocks: seq<nat>)
      requires Valid() && Has(trie, here) && EntryOk(here, Entry(blocks, |here|, lru), blockSize)
      requires forall b :: b in blocks ==> TableRefs(slotBlocks, b) > 0
      modifies this`trie, this`prefixEntryCount, this`prefixBlockRefs, this`blockRefcount, this`freeBlocks
      ensures Valid()
      ensures At(trie, here).Some? && Has(trie, here)
      ensures StoredOne(old(trie), trie, here, blocks)
      ensures OldestGone(old(trie), trie) && Restamped(old(trie), trie, here, lru) && At(trie, here).value.lru == lru
      ensures LimitKept(old(trie), trie, maxPrefixEntries) && prefixEntryCount <= old(prefixEntryCount) + 1
      ensures (maxPrefixEntries.Some? ==> old(prefixEntryCount) < maxPrefixEntries.value) ==> KeptAll(old(trie), trie)
    {
      hide StoredOne, OldestGone, Restamped, LimitKept, KeptAll, Shrunk, Balanced, Counted, NoDup, LeastUsed, MadeRoom;
      ghost var first := trie;
      if At(trie, here).None? {
        NothingGone(trie);
        SomeEntry(trie);
        if maxPrefixEntries.Some? && prefixEntryCount >= maxPrefixEntries.value {
          ghost var path;
          var evicted;
          evicted, path := EvictOnePrefix();
          if evicted {
            ShrunkStep(first, first, trie, path);
            OldestStep(first, first, trie, path);
            EvictedOne(first, trie, path);
          }
        }
        ghost var before := trie;
        RoomMade(first, before, maxPrefixEntries);
        AddEntry(here, blocks);
        EntryAdded(first, before, trie, here, Entry(blocks, |here|, lru), maxPrefixEntries);
      } else {
        var e := At(trie, here).value.(lru := lru);
        FillReplaced(trie, here, Some(e));
        trie := Fill(trie, here, Some(e));
        StampSame(first, trie, here, lru);
        EntryStamped(first, trie, here, blocks, lru, maxPrefixEntries);
        BalancedSame(blockRefcount, freeBlocks, numBlocks, slotBlocks, first, trie);
      }
      AtHas(trie, here);
    }

    /** No eviction can happen while this many more entries and blocks are stored. */
    ghost predicate NoPressure(more: nat)
      reads this
    {
      && (maxPrefixEntries.Some? ==> prefixEntryCount + more <= maxPrefixEntries.value)
      && (maxPrefixBlocks.Some? ==> numBlocks <= maxPrefixBlocks.value || |prefixBlockRefs| + more <= maxPrefixBlocks.value)
    }

    /** Store a completed prompt at every block-aligned boundary, then enforce the budget. */
    method StorePrefix(tokens: seq<Token>, slot: nat)
      requires Valid() && slot < numSlots && |tokens| / blockSize <= |slotBlocks[slot]|
      modifies this`trie, this`lru, this`prefixEntryCount, this`prefixBlockRefs, this`blockRefcount, this`freeBlocks
      ensures Valid()
      ensures Stored(old(trie), trie, tokens, blockSize, maxPrefixEntries, maxPrefixBlocks)
      ensures |tokens| < blockSize ==> trie == old(trie) && lru == old(lru)
      ensures |tokens| >= blockSize ==>
        && lru == old(lru) + 1 && WithinBudget()
        && StoredWithin(old(trie), trie, tokens, slotBlocks[slot][..|tokens| / blockSize], blockSize, lru, maxPrefixEntries,
                        maxPrefixBlocks)
      ensures StoredPath(old(trie), trie, tokens, slotBlocks[slot][..|tokens| / blockSize])
      ensures OldestGone(old(trie), trie) && Restamped(old(trie), trie, tokens, lru)
      ensures UsedLast(trie, tokens, |tokens|, blockSize, lru)
      ensures old(WithinBudget()) ==> WithinBudget()
      ensures maxPrefixEntries.Some? && 1 <= maxPrefixEntries.value && old(prefixEntryCount) <= maxPrefixEntries.value
        ==> prefixEntryCount <= maxPrefixEntries.value
      ensures |prefixBlockRefs| <= |old(prefixBlockRefs)| + |tokens| / blockSize
      ensures old(NoPressure(|tokens| / blockSize)) ==>
        && KeptAll(old(trie), trie) && AllStored(trie, tokens, |tokens|, blockSize)
        && prefixEntryCount <= old(prefixEntryCount) + |tokens| / blockSize
    {
      hide Balanced, Distinct, Counted, StoredPath, OldestGone, Restamped, UsedLast, LimitKept, AllStored, KeptAll,
           Shrunk, Enforced, Walked, NoDup, Stored, StoredWithin;
      var numShared := |tokens| / blockSize;
      if numShared == 0 {
        NothingToStore(trie, tokens, blockSize, lru, slotBlocks[slot][..0]);
        StoredNothing(trie, tokens, blockSize, maxPrefixEntries, maxPrefixBlocks);
        return;
      }
      ghost var first, had, roomy := trie, prefixEntryCount, NoPressure(numShared);
      var table := slotBlocks[slot][..numShared];
      NoDupTake(slotBlocks[slot], numShared);
      assert forall b :: b in table ==> b in slotBlocks[slot];
      OwnedInTable(slotBlocks, slot);
      lru := lru + 1;
      StoreWalk(tokens, table, roomy);
      ghost var full := trie;
      WalkedParts(first, full, tokens, table, blockSize, lru, maxPrefixEntries);
      PinnedInPool(prefixBlockRefs, blockRefcount, freeBlocks, numBlocks, slotBlocks, trie);
      PinsWithin(old(prefixBlockRefs), prefixBlockRefs, first, trie, tokens, table);
      assert roomy ==> WithinBudget();
      EnforcePrefixBudget();
      StoredShrunk(first, full, trie, tokens, table);
      ShrunkCount(full, trie, tokens, lru);
      PinsWithin(old(prefixBlockRefs), prefixBlockRefs, first, trie, tokens, table);
      UseStep(first, full, trie, tokens, |tokens|, blockSize, lru);
      AtLeastOne(|tokens|, blockSize);
      StoredIs(first, full, trie, tokens, table, blockSize, lru, maxPrefixEntries, maxPrefixBlocks);
    }

    /** The walk along `tokens`: a node per token, an entry at every boundary. */
    method StoreWalk(tokens: seq<Token>, table: seq<nat>, ghost roomy: bool)
      requires Valid() && NoDup(table) && |table| == |tokens| / blockSize
      requires forall b :: b in table ==> TableRefs(slotBlocks, b) > 0
      requires roomy ==> NoPressure(|table|)
      modifies this`trie, this`prefixEntryCount, this`prefixBlockRefs, this`blockRefcount, this`freeBlocks
      ensures Valid() && Walked(old(trie), trie, tokens, |tokens|, table, blockSize, lru, maxPrefixEntries)
      ensures roomy ==> Complete(old(trie), trie, tokens, |tokens|, blockSize, old(prefixEntryCount), prefixEntryCount)
    {
      hide Balanced, Distinct, NoDup, Counted, StoredPath, LeastUsedGone, LimitKept, AllStored, Complete, Walked;
      ghost var first, had := trie, prefixEntryCount;
      NothingYet(trie, tokens, table, blockSize, lru, had, maxPrefixEntries);
      for i := 0 to |tokens|
        invariant Valid() && Walked(first, trie, tokens, i, table, blockSize, lru, maxPrefixEntries)
        invariant roomy ==> Complete(first, trie, tokens, i, blockSize, had, prefixEntryCount)
      {
        ghost var before, count := trie, prefixEntryCount;
        WalkedPath(first, before, tokens, i, table, blockSize, lru, maxPrefixEntries);
        if roomy { RoomLeft(first, before, tokens, i, blockSize, had, count); }
        DivMono(i + 1, |tokens|, blockSize);
        StoreStep(tokens, i, table, first);
        WalkStep(first, before, trie, tokens, i, table, blockSize, lru, maxPrefixEntries);
        if roomy { CompleteStep(first, before, trie, tokens, i, blockSize, had, count, prefixEntryCount); }
      }
    }

    /** One token of the store walk. */
    method StoreStep(tokens: seq<Token>, i: nat, table: seq<nat>, ghost first: Node)
      requires Valid() && i < |tokens| && NoDup(table) && (i + 1) / blockSize <= |table|
      requires forall b :: b in table ==> TableRefs(slotBlocks, b) > 0
      requires StoredPath(first, trie, tokens, table)
      modifies this`trie, this`prefixEntryCount, this`prefixBlockRefs, this`blockRefcount, this`freeBlocks
      ensures Valid() && StoredPath(first, trie, tokens, table)
      ensures OldestGone(old(trie), trie) && Restamped(old(trie), trie, tokens, lru)
      ensures (i + 1) % blockSize == 0 ==> At(trie, tokens[..i + 1]).Some? && At(trie, tokens[..i + 1]).value.lru == lru
      ensures LimitKept(old(trie), trie, maxPrefixEntries)
      ensures
        var boundary := (i + 1) % blockSize == 0;
        (boundary && maxPrefixEntries.Some? ==> old(prefixEntryCount) < maxPrefixEntries.value) ==>
        && KeptAll(old(trie), trie) && (boundary ==> At(trie, tokens[..i + 1]).Some?)
        && prefixEntryCount <= old(prefixEntryCount) + if boundary then 1 else 0
    {
      var here := tokens[..i + 1];
      EnsureNode(here);
      ghost var mid := trie;
      assert StoredPath(first, mid, tokens, table);
      if (i + 1) % blockSize == 0 {
        var blocks := table[..(i + 1) / blockSize];
        assert forall b :: b in blocks ==> b in table;
        StoreEntry(here, blocks);
        StoredMore(first, mid, trie, tokens, table, here, (i + 1) / blockSize);
      }
    }

    /** The walk's `setdefault`: no entry and no reference changes. */
    method EnsureNode(here: seq<Token>)
      requires Valid()
      modifies this`trie
      ensures Valid() && Has(trie, here)
      ensures forall q :: At(trie, q) == At(old(trie), q)
      ensures SameRefs(old(trie), trie)
    {
      EnsureReplaced(trie, here);
      ghost var was := trie;
      trie := Ensure(trie, here);
      forall b: nat ensures Refs(trie, b) == Refs(was, b) {
        assert Refs(trie, b) + EntryRefs(At(was, here), b) == Refs(was, b) + EntryRefs(At(was, here), b);
      }
      BalancedSame(blockRefcount, freeBlocks, numBlocks, slotBlocks, was, trie);
    }
  }

  // ---- what goes first ----------------------------------------------------------

  /** An entry is as it was, or lies on `tokens` and carries the stamp of now. */
  ghost predicate Restamped(was: Node, now: Node, tokens: seq<Token>, stamp: nat) {
    forall q :: At(now, q).Some? ==> At(now, q) == At(was, q) || (q <= tokens && At(now, q).value.lru == stamp)
  }

  /** Entries go only where there are as many as the limit allows, one for each that comes. */
  ghost predicate LimitKept(was: Node, now: Node, limit: Option<nat>) {
    && Count(was) <= Count(now)
    && (!KeptAll(was, now) ==> Full(now, limit))
    && (limit.Some? && 1 <= limit.value && Count(was) <= limit.value ==> Count(now) <= limit.value)
  }

  ghost predicate Full(trie: Node, limit: Option<nat>) {
    limit.Some? && limit.value <= Count(trie)
  }

  lemma LimitStep(a: Node, b: Node, c: Node, limit: Option<nat>)
    requires LimitKept(a, b, limit) && LimitKept(b, c, limit)
    ensures LimitKept(a, c, limit)
  {
  }

  /** `tokens` is stored along `table`: an entry at every boundary that the limit leaves room for,
      at the expense of what was least recently used. */
  ghost predicate Walked(was: Node, now: Node, tokens: seq<Token>, n: nat, table: seq<nat>, bs: nat, stamp: nat,
                         limit: Option<nat>)
    requires bs > 0 && n <= |tokens|
  {
    && StoredPath(was, now, tokens, table) && LeastUsedGone(was, now, tokens, n, bs, stamp)
    && LimitKept(was, now, limit) && (AllStored(now, tokens, n, bs) || Full(now, limit))
    && Distinct(now) && EntriesOk(now, bs, stamp)
  }

  /** The whole of storing a prompt: the walk, then the budget. */
  ghost predicate StoredWithin(was: Node, now: Node, tokens: seq<Token>, table: seq<nat>, bs: nat, stamp: nat,
                               limit: Option<nat>, budget: Option<nat>)
    requires bs > 0
  {
    exists full :: Walked(was, full, tokens, |tokens|, table, bs, stamp, limit) && Enforced(full, now, budget)
  }

  /** The entries of `tokens` are the most recently used ones: one of them is missing only when
      nothing less recently used is left. */
  ghost predicate UsedLast(now: Node, tokens: seq<Token>, n: nat, bs: nat, stamp: nat)
    requires bs > 0 && n <= |tokens|
  {
    forall k :: 0 < k <= n && k % bs == 0 ==> LastAt(now, tokens[..k], stamp)
  }

  ghost predicate LastAt(now: Node, path: seq<Token>, stamp: nat) {
    if At(now, path).Some? then At(now, path).value.lru == stamp
    else forall q :: At(now, q).Some? ==> At(now, q).value.lru == stamp
  }

  /** What storing `tokens` up to `n` pushed out is what was least recently used. */
  ghost predicate LeastUsedGone(was: Node, now: Node, tokens: seq<Token>, n: nat, bs: nat, stamp: nat)
    requires bs > 0 && n <= |tokens|
  {
    && (forall q :: At(was, q).Some? ==> At(was, q).value.lru <= stamp)
    && OldestGone(was, now) && Restamped(was, now, tokens, stamp) && UsedLast(now, tokens, n, bs, stamp)
  }

  /** Storing `tokens` along some table, under a stamp later than every other; a prompt without a
      whole block is not stored. */
  ghost predicate Stored(was: Node, now: Node, tokens: seq<Token>, bs: nat, limit: Option<nat>, budget: Option<nat>) {
    && bs > 0
    && if |tokens| < bs then now == was
       else exists table, stamp :: StoredFreshly(was, now, tokens, table, bs, stamp, limit, budget)
  }

  ghost predicate StoredFreshly(was: Node, now: Node, tokens: seq<Token>, table: seq<nat>, bs: nat, stamp: nat,
                                limit: Option<nat>, budget: Option<nat>)
    requires bs > 0
  {
    && |table| == |tokens| / bs && (forall q :: At(was, q).Some? ==> At(was, q).value.lru < stamp)
    && StoredWithin(was, now, tokens, table, bs, stamp, limit, budget)
  }

  lemma StoredNothing(trie: Node, tokens: seq<Token>, bs: nat, limit: Option<nat>, budget: Option<nat>)
    requires bs > 0 && |tokens| < bs
    ensures Stored(trie, trie, tokens, bs, limit, budget)
  {
  }

  lemma StoredIs(was: Node, full: Node, now: Node, tokens: seq<Token>, table: seq<nat>, bs: nat, stamp: nat,
                 limit: Option<nat>, budget: Option<nat>)
    requires bs > 0 && |table| == |tokens| / bs && |tokens| >= bs
    requires Walked(was, full, tokens, |tokens|, table, bs, stamp, limit) && Enforced(full, now, budget)
    requires forall q :: At(was, q).Some? ==> At(was, q).value.lru < stamp
    ensures StoredWithin(was, now, tokens, table, bs, stamp, limit, budget) && Stored(was, now, tokens, bs, limit, budget)
  {
    hide Walked, Enforced;
    assert StoredWithin(was, now, tokens, table, bs, stamp, limit, budget);
    assert StoredFreshly(was, now, tokens, table, bs, stamp, limit, budget);
  }

  /** At most one entry made room for another, and only at the limit. */
  ghost predicate MadeRoom(first: Node, before: Node, limit: Option<nat>) {
    && Shrunk(first, before) && OldestGone(first, before)
    && if before == first then limit.None? || Count(first) < limit.value || Count(first) == 0
       else Count(before) + 1 == Count(first) && Full(first, limit)
  }

  lemma RoomMade(first: Node, before: Node, limit: Option<nat>)
    requires Shrunk(first, before) && OldestGone(first, before)
    requires before == first ==> limit.None? || Count(first) < limit.value || Count(first) == 0
    requires before != first ==> Count(before) + 1 == Count(first) && Full(first, limit)
    ensures MadeRoom(first, before, limit)
  {
  }

  lemma EvictedOne(was: Node, now: Node, path: seq<Token>)
    requires LeastUsed(was, path) && Replaced(was, now, path, None)
    ensures Count(now) + 1 == Count(was) && now != was
  {
  }

  /** What a new entry does to the trie. */
  lemma EntryAdded(first: Node, before: Node, now: Node, here: seq<Token>, e: Entry, limit: Option<nat>)
    requires MadeRoom(first, before, limit) && At(before, here).None? && Replaced(before, now, here, Some(e))
    requires forall q :: At(first, q).Some? ==> At(first, q).value.lru <= e.lru
    ensures StoredOne(first, now, here, e.blocks) && OldestGone(first, now) && Restamped(first, now, here, e.lru)
    ensures LimitKept(first, now, limit) && Count(now) <= Count(first) + 1 && At(now, here) == Some(e)
    ensures (limit.Some? ==> Count(first) < limit.value) ==> KeptAll(first, now)
  {
    StoredAfter(first, before, now, here, e);
    AddedLast(first, before, now, here, e);
  }

  /** What refreshing an entry does. */
  lemma EntryStamped(was: Node, now: Node, here: seq<Token>, blocks: seq<nat>, stamp: nat, limit: Option<nat>)
    requires At(was, here).Some? && Replaced(was, now, here, Stamped(At(was, here), stamp)) && SameRefs(was, now)
    ensures StoredOne(was, now, here, blocks) && OldestGone(was, now) && Restamped(was, now, here, stamp)
    ensures LimitKept(was, now, limit) && KeptAll(was, now) && At(now, here) == Stamped(At(was, here), stamp)
  {
  }

  lemma AddedLast(first: Node, was: Node, now: Node, here: seq<Token>, e: Entry)
    requires Shrunk(first, was) && OldestGone(first, was) && EntriesReplaced(was, now, here, Some(e))
    requires forall q :: At(first, q).Some? ==> At(first, q).value.lru <= e.lru
    ensures OldestGone(first, now) && Restamped(first, now, here, e.lru)
  {
    forall p, q | At(first, p).Some? && At(now, p).None? && At(now, q).Some?
      ensures At(first, p).value.lru <= At(now, q).value.lru
    {
      assert At(was, p).None? && (q != here ==> At(was, q) == At(now, q));
    }
  }

  lemma UseStep(first: Node, was: Node, now: Node, tokens: seq<Token>, n: nat, bs: nat, stamp: nat)
    requires bs > 0 && n <= |tokens| && LeastUsedGone(first, was, tokens, n, bs, stamp)
    requires forall q :: At(was, q).Some? ==> At(was, q).value.lru <= stamp
    requires OldestGone(was, now) && Restamped(was, now, tokens, stamp)
    ensures LeastUsedGone(first, now, tokens, n, bs, stamp)
  {
    forall p, q | At(first, p).Some? && At(now, p).None? && At(now, q).Some?
      ensures At(first, p).value.lru <= At(now, q).value.lru
    {
      if At(was, p).Some? {
        assert At(first, p).value.lru <= At(was, p).value.lru <= At(now, q).value.lru;
      } else if At(now, q) == At(was, q) {
        assert At(first, p).value.lru <= At(was, q).value.lru;
      }
    }
    forall k | 0 < k <= n && k % bs == 0 ensures LastAt(now, tokens[..k], stamp) {
      assert LastAt(was, tokens[..k], stamp);
    }
  }

  lemma UseMore(first: Node, now: Node, tokens: seq<Token>, i: nat, bs: nat, stamp: nat)
    requires bs > 0 && i < |tokens| && LeastUsedGone(first, now, tokens, i, bs, stamp)
    requires (i + 1) % bs == 0 ==> LastAt(now, tokens[..i + 1], stamp)
    ensures LeastUsedGone(first, now, tokens, i + 1, bs, stamp)
  {
  }

  lemma StoredMore(first: Node, was: Node, now: Node, tokens: seq<Token>, table: seq<nat>, here: seq<Token>, nb: nat)
    requires nb <= |table| && here <= tokens
    requires StoredPath(first, was, tokens, table)
    requires StoredOne(was, now, here, table[..nb])
    ensures StoredPath(first, now, tokens, table)
  {
    forall b: nat | b !in table ensures Refs(now, b) <= Refs(first, b) {
      OccursIn(table[..nb], b);
    }
  }

  lemma StoredShrunk(first: Node, was: Node, now: Node, tokens: seq<Token>, table: seq<nat>)
    requires StoredPath(first, was, tokens, table) && Shrunk(was, now)
    ensures StoredPath(first, now, tokens, table)
  {
    forall b: nat | b !in table ensures Refs(now, b) <= Refs(first, b) {
      assert Refs(now, b) <= Refs(was, b);
    }
  }

  /** Only the blocks of `table` may be pinned that were not before. */
  lemma PinsWithin(was: map<nat, nat>, now: map<nat, nat>, first: Node, trie: Node, tokens: seq<Token>, table: seq<nat>)
    requires StoredPath(first, trie, tokens, table)
    requires forall b: nat :: Counted(b, was, Refs(first, b))
    requires forall b: nat :: Counted(b, now, Refs(trie, b))
    ensures |now| <= |was| + |table|
  {
    forall b | b in now ensures b in was.Keys + Elements(table) {
      assert Counted(b, now, Refs(trie, b)) && Counted(b, was, Refs(first, b));
    }
    SubsetCard(now.Keys, was.Keys + Elements(table));
    FewElements(table);
    assert |now| == |now.Keys| && |was| == |was.Keys|;
    CardOfUnion(was.Keys, Elements(table));
  }

  lemma OwnedInTable(tables: seq<seq<nat>>, s: nat)
    requires s < |tables|
    ensures forall b :: b in tables[s] ==> TableRefs(tables, b) > 0
  {
    forall b | b in tables[s] ensures TableRefs(tables, b) > 0 {
      OccursIn(tables[s], b);
      TableRefsAtLeast(tables, s, b);
    }
  }

  /** Entries for `tokens` use a prefix of `table`; every other entry was there before with
      the same blocks, and only the blocks of `table` may have gained a reference. */
  ghost predicate StoredPath(was: Node, now: Node, tokens: seq<Token>, table: seq<nat>) {
    && (forall q :: At(now, q).Some? ==>
          (At(was, q).Some? && At(now, q).value.blocks == At(was, q).value.blocks)
          || (q <= tokens && At(now, q).value.blocks <= table))
    && (forall b: nat :: b !in table ==> Refs(now, b) <= Refs(was, b))
  }

  /** Nothing was lost and everything up to `n` is stored. */
  ghost predicate Complete(was: Node, now: Node, tokens: seq<Token>, n: nat, bs: nat, had: int, have: int)
    requires bs > 0 && n <= |tokens|
  {
    KeptAll(was, now) && AllStored(now, tokens, n, bs) && have <= had + n / bs
  }

  lemma CompleteStep(first: Node, was: Node, now: Node, tokens: seq<Token>, i: nat, bs: nat, had: int, mid: int, have: int)
    requires bs > 0 && i < |tokens|
    requires Complete(first, was, tokens, i, bs, had, mid) && KeptAll(was, now)
    requires (i + 1) % bs == 0 ==> At(now, tokens[..i + 1]).Some?
    requires have <= mid + if (i + 1) % bs == 0 then 1 else 0
    ensures Complete(first, now, tokens, i + 1, bs, had, have)
  {
    BoundaryStep(i, bs);
  }

  lemma NothingYet(trie: Node, tokens: seq<Token>, table: seq<nat>, bs: nat, stamp: nat, had: int, limit: Option<nat>)
    requires bs > 0 && Distinct(trie) && EntriesOk(trie, bs, stamp)
    ensures Walked(trie, trie, tokens, 0, table, bs, stamp, limit) && Complete(trie, trie, tokens, 0, bs, had, had)
  {
    DivOf(0, 0, bs);
  }

  lemma WalkedParts(was: Node, now: Node, tokens: seq<Token>, table: seq<nat>, bs: nat, stamp: nat, limit: Option<nat>)
    requires bs > 0 && Walked(was, now, tokens, |tokens|, table, bs, stamp, limit)
    ensures StoredPath(was, now, tokens, table) && LeastUsedGone(was, now, tokens, |tokens|, bs, stamp)
    ensures limit.Some? && 1 <= limit.value && Count(was) <= limit.value ==> Count(now) <= limit.value
  {
    hide StoredPath, LeastUsedGone, AllStored, KeptAll;
  }

  lemma ShrunkCount(was: Node, now: Node, tokens: seq<Token>, stamp: nat)
    requires Shrunk(was, now)
    ensures Count(now) <= Count(was) && Restamped(was, now, tokens, stamp)
  {
  }

  lemma NoDupTake(s: seq<nat>, n: nat)
    requires NoDup(s) && n <= |s|
    ensures NoDup(s[..n])
  {
  }

  lemma AtLeastOne(n: nat, bs: nat)
    requires bs > 0
    ensures n / bs > 0 <==> n >= bs
  {
    assert n == n / bs * bs + n % bs;
    if n / bs > 0 { MulMono(1, n / bs, bs); }
  }

  lemma WalkedPath(first: Node, now: Node, tokens: seq<Token>, n: nat, table: seq<nat>, bs: nat, stamp: nat,
                   limit: Option<nat>)
    requires bs > 0 && n <= |tokens| && Walked(first, now, tokens, n, table, bs, stamp, limit)
    ensures StoredPath(first, now, tokens, table)
  {
    hide StoredPath, LeastUsedGone, LimitKept, AllStored;
  }

  lemma RoomLeft(first: Node, now: Node, tokens: seq<Token>, i: nat, bs: nat, had: int, have: int)
    requires bs > 0 && i < |tokens| && Complete(first, now, tokens, i, bs, had, have)
    ensures have <= had + i / bs <= had + |tokens| / bs
    ensures (i + 1) % bs == 0 ==> i / bs < |tokens| / bs
  {
    hide KeptAll, AllStored;
    BoundaryStep(i, bs);
    DivMono(i, |tokens|, bs);
    DivMono(i + 1, |tokens|, bs);
  }

  /** One more token of the walk. */
  lemma WalkStep(first: Node, was: Node, now: Node, tokens: seq<Token>, i: nat, table: seq<nat>, bs: nat, stamp: nat,
                 limit: Option<nat>)
    requires bs > 0 && i < |tokens| && Walked(first, was, tokens, i, table, bs, stamp, limit)
    requires StoredPath(first, now, tokens, table) && LimitKept(was, now, limit)
    requires EntriesOk(was, bs, stamp) && Distinct(now) && EntriesOk(now, bs, stamp)
    requires OldestGone(was, now) && Restamped(was, now, tokens, stamp)
    requires (i + 1) % bs == 0 ==> At(now, tokens[..i + 1]).Some? && At(now, tokens[..i + 1]).value.lru == stamp
    ensures Walked(first, now, tokens, i + 1, table, bs, stamp, limit)
  {
    hide StoredPath, LimitKept, LeastUsedGone, OldestGone, Restamped, AllStored, UsedLast;
    UseStep(first, was, now, tokens, i, bs, stamp);
    UseMore(first, now, tokens, i, bs, stamp);
    LimitStep(first, was, now, limit);
    StillStored(was, now, tokens, i, bs, limit);
  }

  lemma StillStored(was: Node, now: Node, tokens: seq<Token>, i: nat, bs: nat, limit: Option<nat>)
    requires bs > 0 && i < |tokens| && LimitKept(was, now, limit) && (AllStored(was, tokens, i, bs) || Full(was, limit))
    requires (i + 1) % bs == 0 ==> At(now, tokens[..i + 1]).Some?
    ensures AllStored(now, tokens, i + 1, bs) || Full(now, limit)
  {
  }

  lemma NothingToStore(trie: Node, tokens: seq<Token>, bs: nat, stamp: nat, table: seq<nat>)
    requires bs > 0 && |tokens| / bs == 0
    ensures AllStored(trie, tokens, |tokens|, bs) && |tokens| < bs && UsedLast(trie, tokens, |tokens|, bs, stamp)
    ensures OldestGone(trie, trie) && Restamped(trie, trie, tokens, stamp)
    ensures StoredPath(trie, trie, tokens, table) && KeptAll(trie, trie)
  {
    assert |tokens| == |tokens| / bs * bs + |tokens| % bs;
    forall k | 0 < k <= |tokens| ensures k % bs != 0 {
      DivOf(0, k, bs);
    }
  }

  /** Every block-aligned prefix of `tokens` up to length `n` has an entry. */
  ghost predicate AllStored(trie: Node, tokens: seq<Token>, n: nat, bs: nat)
    requires bs > 0 && n <= |tokens|
  {
    forall k :: 0 < k <= n && k % bs == 0 ==> At(trie, tokens[..k]).Some?
  }

  lemma StoredAfter(first: Node, was: Node, now: Node, here: seq<Token>, e: Entry)
    requires Shrunk(first, was) && At(was, here).None? && Replaced(was, now, here, Some(e))
    ensures StoredOne(first, now, here, e.blocks)
  {
    forall b: nat ensures Refs(now, b) <= Refs(first, b) + Occurs(e.blocks, b) {
      assert Refs(now, b) + EntryRefs(At(was, here), b) == Refs(was, b) + EntryRefs(Some(e), b);
    }
  }

  /** `now` gained at most an entry with `blocks` at `here`; all else it holds is from `was`. */
  ghost predicate StoredOne(was: Node, now: Node, here: seq<Token>, blocks: seq<nat>) {
    && (forall q :: At(now, q).Some? ==>
          (At(was, q).Some? && At(now, q).value.blocks == At(was, q).value.blocks)
          || (q == here && At(now, q).value.blocks == blocks))
    && (forall b: nat :: Refs(now, b) <= Refs(was, b) + Occurs(blocks, b))
  }

  ghost predicate KeptAll(was: Node, now: Node) {
    forall q :: At(was, q).Some? ==> At(now, q).Some?
  }

  ghost predicate SameRefs(was: Node, now: Node) {
    (forall b: nat :: Refs(now, b) == Refs(was, b)) && Count(now) == Count(was)
  }

  lemma BalancedSame(rc: map<nat, nat>, free: seq<nat>, numBlocks: nat, tables: seq<seq<nat>>, was: Node, now: Node)
    requires Balanced(rc, free, numBlocks, tables, was) && SameRefs(was, now)
    ensures Balanced(rc, free, numBlocks, tables, now)
  {
    forall b: nat ensures Accounted(b, rc, free, numBlocks, Owners(tables, now, b)) {
      assert Accounted(b, rc, free, numBlocks, Owners(tables, was, b));
    }
  }

  // ---- lookup --------------------------------------------------------------------

  /** `matched` is the longest prefix of `tokens` with an entry, 0 when there is none. */
  ghost predicate LongestMatch(trie: Node, tokens: seq<Token>, matched: nat, blocks: seq<nat>) {
    && matched <= |tokens|
    && (matched == 0 ==> blocks == [])
    && (matched > 0 ==> At(trie, tokens[..matched]).Some? && At(trie, tokens[..matched]).value.blocks == blocks)
    && (forall k :: matched < k <= |tokens| ==> At(trie, tokens[..k]).None?)
  }

  function Stamped(e: Option<Entry>, stamp: nat): Option<Entry> {
    match e case None => None case Some(v) => Some(v.(lru := stamp))
  }

  /** The entries at non-empty prefixes of `tokens` carry `stamp`; nothing else changed. */
  ghost predicate Touched(was: Node, now: Node, tokens: seq<Token>, stamp: nat) {
    forall q :: At(now, q) == if q != [] && q <= tokens then Stamped(At(was, q), stamp) else At(was, q)
  }

  lemma StampSame(was: Node, now: Node, here: seq<Token>, stamp: nat)
    requires At(was, here).Some? && Replaced(was, now, here, Stamped(At(was, here), stamp))
    ensures SameRefs(was, now)
  {
    forall b: nat ensures Refs(now, b) == Refs(was, b) {
      assert Refs(now, b) + EntryRefs(At(was, here), b) == Refs(was, b) + EntryRefs(Stamped(At(was, here), stamp), b);
    }
  }

  lemma TouchNothing(trie: Node, tokens: seq<Token>, stamp: nat)
    ensures Touched(trie, trie, tokens[..0], stamp) && LongestMatch(trie, tokens[..0], 0, [])
  {
  }

  lemma TouchStep(was: Node, mid: Node, now: Node, tokens: seq<Token>, i: nat, stamp: nat)
    requires i < |tokens| && Touched(was, mid, tokens[..i], stamp)
    requires EntriesReplaced(mid, now, tokens[..i + 1], Stamped(At(mid, tokens[..i + 1]), stamp))
    ensures Touched(was, now, tokens[..i + 1], stamp)
  {
    forall q ensures At(now, q) == if q != [] && q <= tokens[..i + 1] then Stamped(At(was, q), stamp) else At(was, q) {
      if q <= tokens[..i + 1] && q != tokens[..i + 1] {
        assert q <= tokens[..i];
      }
    }
  }

  lemma MatchStep(was: Node, tokens: seq<Token>, i: nat, matched: nat, blocks: seq<nat>)
    requires i < |tokens|
    requires
      if At(was, tokens[..i + 1]).Some?
      then matched == i + 1 && blocks == At(was, tokens[..i + 1]).value.blocks
      else LongestMatch(was, tokens[..i], matched, blocks)
    ensures LongestMatch(was, tokens[..i + 1], matched, blocks)
  {
    var here := tokens[..i + 1];
    assert here[..i + 1] == here;
    forall k | 0 <= k <= i ensures here[..k] == tokens[..i][..k] {
    }
  }

  lemma LookupDone(was: Node, now: Node, tokens: seq<Token>, i: nat, stamp: nat, matched: nat, blocks: seq<nat>)
    requires i <= |tokens| && (i == |tokens| || !Has(now, tokens[..i + 1]))
    requires Touched(was, now, tokens[..i], stamp) && LongestMatch(was, tokens[..i], matched, blocks)
    ensures Touched(was, now, tokens, stamp) && LongestMatch(was, tokens, matched, blocks)
  {
    forall k | i < k <= |tokens| ensures At(was, tokens[..k]).None? && At(now, tokens[..k]).None? {
      assert tokens[..k][..i + 1] == tokens[..i + 1];
      if At(now, tokens[..k]).Some? {
        AtHas(now, tokens[..k]);
        HasPrefix(now, tokens[..k], i + 1);
      }
    }
    forall k | 0 <= k <= i ensures tokens[..i][..k] == tokens[..k] {
    }
    forall q | q <= tokens ensures q == tokens[..|q|] && (|q| <= i ==> q <= tokens[..i]) {
    }
  }

  /** With no entry left nothing is pinned. */
  lemma NothingPinned(rc: map<nat, nat>, trie: Node)
    requires Distinct(trie) && forall b: nat :: Counted(b, rc, Refs(trie, b))
    ensures (forall q :: At(trie, q).None?) ==> |rc| == 0
  {
    if forall q :: At(trie, q).None? {
      NoEntriesNoRefs(trie);
      forall b: nat ensures b !in rc {
        assert Counted(b, rc, Refs(trie, b));
      }
      assert rc.Keys == {} && |rc| == |rc.Keys|;
    }
  }

  /** What is gone was used no later than anything that is left. */
  ghost predicate OldestGone(was: Node, now: Node) {
    forall p, q :: At(was, p).Some? && At(now, p).None? && At(now, q).Some? ==>
      At(was, p).value.lru <= At(now, q).value.lru
  }

  lemma OldestStep(first: Node, was: Node, now: Node, path: seq<Token>)
    requires Shrunk(first, was) && OldestGone(first, was) && LeastUsed(was, path) && Replaced(was, now, path, None)
    ensures OldestGone(first, now)
  {
    forall p, q | At(first, p).Some? && At(now, p).None? && At(now, q).Some?
      ensures At(first, p).value.lru <= At(now, q).value.lru
    {
      assert At(now, q) == At(was, q);
      if At(was, p).Some? {
        assert p == path && At(first, p) == At(was, p);
      }
    }
  }

  lemma NothingGone(trie: Node)
    ensures Shrunk(trie, trie) && OldestGone(trie, trie)
  {
  }

  lemma ReplacedCount(was: Node, now: Node, path: seq<Token>)
    requires LeastUsed(was, path) && Replaced(was, now, path, None)
    ensures Count(now) < Count(was)
  {
  }

  /** The entries of the trie name more than `n` different blocks. */
  ghost predicate PinsOver(trie: Node, n: nat) {
    exists pins: set<nat> :: |pins| > n && forall b :: b in pins ==> Refs(trie, b) > 0
  }

  lemma PinsMany(rc: map<nat, nat>, trie: Node, n: nat)
    requires |rc| > n && forall b: nat :: Counted(b, rc, Refs(trie, b))
    ensures PinsOver(trie, n)
  {
    var pins := rc.Keys;
    assert |pins| == |rc|;
    forall b | b in pins ensures Refs(trie, b) > 0 {
      assert Counted(b, rc, Refs(trie, b));
    }
  }

  /** From `was` to `now` the least used entries went, the one at `path` last, from `before`. */
  ghost predicate LastEvicted(was: Node, before: Node, path: seq<Token>, now: Node) {
    && Distinct(before) && Shrunk(was, before) && OldestGone(was, before)
    && LeastUsed(before, path) && Replaced(before, now, path, None)
  }

  /** The least used entries went, and not one more than the budget asks for: before the last of
      them went the trie still pinned too many blocks. */
  ghost predicate Enforced(was: Node, now: Node, budget: Option<nat>) {
    now == was
    || (budget.Some? && exists before, path :: LastEvicted(was, before, path, now) && PinsOver(before, budget.value))
  }

  /** Entries only went away. */
  ghost predicate Shrunk(was: Node, now: Node) {
    && (forall q :: At(now, q).Some? ==> At(now, q) == At(was, q))
    && (forall b: nat :: Refs(now, b) <= Refs(was, b))
    && Count(now) <= Count(was)
  }

  lemma ShrunkStep(first: Node, was: Node, now: Node, path: seq<Token>)
    requires Shrunk(first, was) && Replaced(was, now, path, None)
    ensures Shrunk(first, now)
  {
    forall b: nat ensures Refs(now, b) <= Refs(first, b) {
      assert Refs(now, b) + EntryRefs(At(was, path), b) == Refs(was, b) + EntryRefs(None, b);
    }
  }

  /** Only the listed slots changed, by appending blocks nobody owned before. */
  ghost predicate OnlyGrown(was: seq<seq<nat>>, now: seq<seq<nat>>, trie: Node, slots: seq<nat>) {
    && |now| == |was|
    && (forall s :: 0 <= s < |was| ==> was[s] <= now[s] && (s !in slots ==> now[s] == was[s]))
    && (forall b: nat :: Owners(was, trie, b) > 0 ==> Owners(now, trie, b) == Owners(was, trie, b))
    && (forall s, k :: 0 <= s < |was| && |was[s]| <= k < |now[s]| ==>
          Owners(was, trie, now[s][k]) == 0 && Owners(now, trie, now[s][k]) == 1)
  }

  lemma OnlyGrownStep(first: seq<seq<nat>>, was: seq<seq<nat>>, now: seq<seq<nat>>, trie: Node,
                      slots: seq<nat>, s: nat, more: seq<nat>)
    requires OnlyGrown(first, was, trie, slots) && s < |was| && s in slots
    requires now == was[s := was[s] + more] && Grown(was, now, trie, more)
    ensures OnlyGrown(first, now, trie, slots)
  {
    forall r, k | 0 <= r < |first| && |first[r]| <= k < |now[r]|
      ensures Owners(first, trie, now[r][k]) == 0 && Owners(now, trie, now[r][k]) == 1
    {
      var b := now[r][k];
      if k < |was[r]| {
        assert Owners(was, trie, was[r][k]) == 1;
      } else {
        assert b in more;
      }
    }
  }

  // ---- what growth takes ---------------------------------------------------------

  function Sizes(tables: seq<seq<nat>>): (r: seq<nat>)
    ensures |r| == |tables|
  {
    seq(|tables|, s requires 0 <= s < |tables| => |tables[s]|)
  }

  /** The blocks missing before every listed slot holds its length, the slots served in order. */
  function Demand(have: seq<nat>, slots: seq<nat>, lengths: seq<nat>, bs: nat): nat
    requires bs > 0 && |slots| == |lengths| && forall i :: 0 <= i < |slots| ==> slots[i] < |have|
    decreases |slots|
  {
    if slots == [] then 0
    else
      var s, need := slots[0], Needed(lengths[0], bs);
      var more := if need <= have[s] then 0 else need - have[s];
      more + Demand(have[s := have[s] + more], slots[1..], lengths[1..], bs)
  }

  /** How long the tables are once every listed slot holds its length. */
  function Fitted(have: seq<nat>, slots: seq<nat>, lengths: seq<nat>, bs: nat): (r: seq<nat>)
    requires bs > 0 && |slots| == |lengths| && forall i :: 0 <= i < |slots| ==> slots[i] < |have|
    ensures |r| == |have|
    decreases |slots|
  {
    if slots == [] then have
    else
      var s, need := slots[0], Needed(lengths[0], bs);
      Fitted(have[s := if need <= have[s] then have[s] else need], slots[1..], lengths[1..], bs)
  }

  /** Growing the slots one after the other takes what growing them together takes. */
  lemma DemandOne(have: seq<nat>, slots: seq<nat>, lengths: seq<nat>, bs: nat, k: nat)
    requires bs > 0 && k < |slots| == |lengths| && forall i :: 0 <= i < |slots| ==> slots[i] < |have|
    ensures Demand(have, slots[k..], lengths[k..], bs)
         == Demand(have, [slots[k]], [lengths[k]], bs)
          + Demand(Fitted(have, [slots[k]], [lengths[k]], bs), slots[k + 1..], lengths[k + 1..], bs)
  {
    hide Needed;
    assert slots[k..][1..] == slots[k + 1..] && lengths[k..][1..] == lengths[k + 1..];
    var s, need := slots[k], Needed(lengths[k], bs);
    var then' := have[s := if need <= have[s] then have[s] else need];
    assert [slots[k]][1..] == [] && [lengths[k]][1..] == [];
    assert Fitted(have, [slots[k]], [lengths[k]], bs) == then';
    assert then' == have[s := have[s] + if need <= have[s] then 0 else need - have[s]];
  }

  /** Part of the way through: what `k` slots took and what the others need is what all needed. */
  ghost predicate DemandLeft(had: seq<nat>, free: nat, have: seq<nat>, now: nat, slots: seq<nat>, lengths: seq<nat>,
                             bs: nat, k: nat) {
    && bs > 0 && k <= |slots| == |lengths| && |have| == |had|
    && (forall i :: 0 <= i < |slots| ==> slots[i] < |had|)
    && Demand(had, slots, lengths, bs) + now == free + Demand(have, slots[k..], lengths[k..], bs)
  }

  lemma DemandStart(had: seq<nat>, free: nat, slots: seq<nat>, lengths: seq<nat>, bs: nat)
    requires bs > 0 && |slots| == |lengths| && forall i :: 0 <= i < |slots| ==> slots[i] < |had|
    ensures DemandLeft(had, free, had, free, slots, lengths, bs, 0)
  {
    assert slots[0..] == slots && lengths[0..] == lengths;
  }

  lemma DemandNext(had: seq<nat>, free: nat, have: seq<nat>, now: nat, slots: seq<nat>, lengths: seq<nat>, bs: nat, k: nat)
    requires DemandLeft(had, free, have, now, slots, lengths, bs, k) && k < |slots|
    ensures
      var more := Demand(have, [slots[k]], [lengths[k]], bs);
      if more <= now
      then DemandLeft(had, free, Fitted(have, [slots[k]], [lengths[k]], bs), now - more, slots, lengths, bs, k + 1)
      else Demand(had, slots, lengths, bs) > free
  {
    hide Demand, Fitted;
    DemandOne(have, slots, lengths, bs, k);
  }

  lemma DemandMet(had: seq<nat>, free: nat, have: seq<nat>, now: nat, slots: seq<nat>, lengths: seq<nat>, bs: nat)
    requires DemandLeft(had, free, have, now, slots, lengths, bs, |slots|)
    ensures Demand(had, slots, lengths, bs) <= free
  {
    assert slots[|slots|..] == [] && lengths[|slots|..] == [];
  }

  lemma DemandStep(was: seq<seq<nat>>, now: seq<seq<nat>>, slots: seq<nat>, lengths: seq<nat>, bs: nat, i: nat,
                   more: seq<nat>)
    requires bs > 0 && i < |slots| == |lengths| && forall i :: 0 <= i < |slots| ==> slots[i] < |was|
    requires now == was[slots[i] := was[slots[i]] + more]
    ensures |now[slots[i]]| == |was[slots[i]]| + |more|
    ensures
      var have, need := |was[slots[i]]|, Needed(lengths[i], bs);
      var all := Demand(Sizes(was), slots[i..], lengths[i..], bs);
      && (|more| == (if need <= have then 0 else need - have) ==>
           && all == |more| + Demand(Sizes(now), slots[i + 1..], lengths[i + 1..], bs)
           && Fitted(Sizes(was), slots[i..], lengths[i..], bs) == Fitted(Sizes(now), slots[i + 1..], lengths[i + 1..], bs))
      && (need > have ==> all >= need - have)
  {
    assert slots[i..][1..] == slots[i + 1..] && lengths[i..][1..] == lengths[i + 1..];
    assert Sizes(now) == Sizes(was)[slots[i] := |was[slots[i]]| + |more|];
  }

  /** A slot that grew stays within one of its listed needs. */
  ghost predicate GrownToNeed(was: seq<seq<nat>>, now: seq<seq<nat>>, slots: seq<nat>, lengths: seq<nat>, bs: nat)
    requires bs > 0 && |slots| == |lengths|
  {
    |now| == |was| && forall s :: 0 <= s < |was| && |now[s]| > |was[s]| ==> NeedsAtLeast(slots, lengths, bs, s, |now[s]|)
  }

  ghost predicate NeedsAtLeast(slots: seq<nat>, lengths: seq<nat>, bs: nat, s: nat, n: nat)
    requires bs > 0 && |slots| == |lengths|
  {
    exists i :: 0 <= i < |slots| && slots[i] == s && n <= Needed(lengths[i], bs)
  }

  lemma GrowthStart(tables: seq<seq<nat>>, trie: Node, slots: seq<nat>, lengths: seq<nat>, bs: nat)
    requires bs > 0 && |slots| == |lengths|
    ensures OnlyGrown(tables, tables, trie, slots) && GrownToNeed(tables, tables, slots, lengths, bs)
  {
  }

  lemma GrownStep(first: seq<seq<nat>>, was: seq<seq<nat>>, now: seq<seq<nat>>, slots: seq<nat>, lengths: seq<nat>,
                  bs: nat, i: nat, more: seq<nat>)
    requires bs > 0 && i < |slots| == |lengths| && slots[i] < |was| && GrownToNeed(first, was, slots, lengths, bs)
    requires now == was[slots[i] := was[slots[i]] + more]
    requires more != [] ==> |now[slots[i]]| <= Needed(lengths[i], bs)
    ensures GrownToNeed(first, now, slots, lengths, bs)
  {
    forall s | 0 <= s < |first| && |now[s]| > |first[s]| ensures NeedsAtLeast(slots, lengths, bs, s, |now[s]|) {
      if s != slots[i] || more == [] {
        assert now[s] == was[s] || more == [];
        assert NeedsAtLeast(slots, lengths, bs, s, |was[s]|);
      }
    }
  }

  lemma ShortAt(tables: seq<seq<nat>>, slots: seq<nat>, lengths: seq<nat>, bs: nat, i: nat)
    requires bs > 0 && i < |slots| == |lengths| && slots[i] < |tables| && |tables[slots[i]]| < Needed(lengths[i], bs)
    ensures SlotShort(tables, slots, lengths, bs)
  {
  }

  lemma NoDemand(have: seq<nat>, bs: nat)
    requires bs > 0
    ensures Demand(have, [], [], bs) == 0 && Fitted(have, [], [], bs) == have
  {
  }

  ghost predicate SlotShort(tables: seq<seq<nat>>, slots: seq<nat>, lengths: seq<nat>, bs: nat)
    requires bs > 0 && |slots| == |lengths|
  {
    exists i :: 0 <= i < |slots| && slots[i] < |tables| && |tables[slots[i]]| < Needed(lengths[i], bs)
  }

  /** From `was` to `now` exactly the blocks `more` got their first owner. */
  ghost predicate Grown(was: seq<seq<nat>>, now: seq<seq<nat>>, trie: Node, more: seq<nat>) {
    && (forall b: nat :: b in more ==> Owners(was, trie, b) == 0 && Owners(now, trie, b) == 1)
    && (forall b: nat :: b !in more ==> Owners(now, trie, b) == Owners(was, trie, b))
  }
}
