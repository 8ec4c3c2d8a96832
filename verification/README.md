# Verified model of the serving engine's token path

This project models the token path of the superl8-serve inference server and proves what its
comments promise: batching, paging, prefix sharing, preemption and speculation change when a
token is computed, never which token it is.

* `Network` and `PagedForward` abstract the network as uninterpreted per-layer functions and
  prove that a verify or prefill block over the shared paged store equals token-by-token
  decoding. `Prefill` adds chunks and shared prefixes, `Packed` whole batches of prompts laid end to
  end in one pass.
* `PrefixTrie`, `Blocks` and `PagedCache` are the block allocator and its radix prefix cache:
  reference counts from slots and entries, LRU eviction, budget, sharing without copying.
* `Greedy` is the reference: one request decoded alone. `Sequences` is a request inside the
  engine and one speculative acceptance.
* `EngineState`, `EngineRows`, `EngineLists` and `EnginePack` hold the invariant. In every reachable state each
  sequence's slot reads exactly the K/V of its own token history (a stale carry, possible only when
  the gate changes, is the one exception), every prefix entry's blocks hold the K/V of its path, and
  writes only reach blocks with a single owner.
* `Pool` says exactly how large a block pool must be so that it never runs dry while someone needs a
  block; `Capacity` brings that to the engine's state. `Retention` is what storing a prompt leaves in the
  prefix cache. `Runs` is what a run of engine steps makes of one sequence
  and of the running list. `Lists` has the lists without repetitions that all of them use.
* `Engine` is the scheduler, the runner and the engine loop over one cache object.
* `Limits` shows where the code leaves the greedy run and states the exact conditions. `Scenarios`
  derives what the cache and the engine do on small inputs on which a comment of the code fails.
* `Worker` is the thread that owns the engine: an inbox, one atomic action per method, so that any
  sequence of calls is an interleaving of clients and worker.
* `Drafters`, `Bitmask`, `Grammar` and `GrammarSpec` are the n-gram and grammar drafters and
  constrained speculation. `LinearAttn` covers the recurrent mixers, `Reasoning` the streamed
  text split, `Diffusion` the unmasking loop, `Repetition` the repetition set.

## Main results

* `Engine.LLMEngine.Generate`: generation terminates if the prefix budget is smaller than the block
  pool. If the engine is provisioned for its requests (`Pool.Provisioned`: the pool holds the
  prefix budget beside `max_num_seqs` tables of the longest request), the gate does not change and
  the window has room, then no step fails, nothing is preempted, and every output is the one its
  prompt would get alone, for every arrival, batching, eviction and speculation. Without those
  conditions the same holds for every request that met none of the recorded events of
  `Sequences.Faithful`: a second preemption, a stale carry that was consumed, or speculation or a
  preemption in a window that the request does not fit. The run that `Generate` returns bounds these
  events: `Runs.RunPreempts` and `Runs.RunMisfed` say which steps caused them. `Limits` shows for
  each of them how it breaks the property, and exactly when.
* `Engine.LLMEngine.ContentInvariant`: block tables, prefix entries and ownership in every reachable
  state, also for sequences that have left their own run.
* `Packed.PackedForward` with `EnginePack.PackShared`: packing a batch of prompts into one pass computes
  for each what it would compute alone, even where prompts share blocks and write the same cells.
* `Limits.PlainStepKeepsRun`: a carry across a plain step is safe under every network exactly when
  there is none. Otherwise some network's run is left at the next speculative step
  (`Limits.CarryMisleads`); a network that merely repeats the token hides it in the tokens but not in
  the cache (`Limits.RepeatedTokenTears`).
* `Pool.ProvisionedExactly`: that condition on the pool cannot be weakened. Every smaller pool has a
  consistent state within the bounds in which someone starves.
* `Engine.LLMEngine.Schedule`: preemption happens if and only if a request waits, sequences run, a
  slot is free and the block pool is dry. The contract also fixes who leaves, in which order, and that
  nobody leaves once a block is free. An idle engine with a queue gets an empty batch if and only if the trie pins every
  block (or there is no slot), so a prefix budget as large as the pool can starve it for ever
  (`Scenarios.ReachStarvation`, `Scenarios.StaysStarved`).
* `Worker.EngineWorker.Turn` and `Delivered`: exactly-once delivery under every interleaving, each stream
  ended for the reason its own sequence gives unless its consumer went away, and by `Worker.Over` the
  delivered tokens are the request's own greedy output.
* `GrammarSpec.ConstrainedRun`: a constrained request that is never preempted and never takes a plain
  step over a held carry gets exactly mask-then-argmax decoding, for every grammar that is complete
  only after an EOS along that run (`GrammarSpec.StopsEndsAtEos`: for every one that nothing but the
  EOS completes). The verify walk counts matching drafts as undo steps even when a completed grammar
  refused them; `GrammarSpec.VerifyWalk` says where the matcher ends and exactly when that is where it
  was.
* `Runs.RunningInOrder`: over any run the running list stands in the order of admission, so by
  `Runs.VictimsInOrder` the sequences a step preempts are the least by outputs and then by admission.
* `Retention.OwnPromptStays`: a prompt that fits the limits of the prefix cache is never pushed out by
  its own arrival, and `PagedCache.Enforced` says that eviction stops at the first state within the budget.
* `LinearAttn.DeltaRewrites`: the delta rule, by what the state reads before and after a token, for every
  token and channel of `LinearAttn.RecurrentDelta`.
* `Diffusion.Generate`: the unmasking loop as a function of its steps, with a balanced schedule.
* `Reasoning.SplitSays` and `Reasoning.LosslessExactly`: a split is exactly what the text says, and
  streamed deltas are lossless if and only if the text is clean.

## Where code and documentation differ

* The speculative step is described as byte-identical to plain greedy decoding. A plain step does
  not clear a carry, so a gate that flips from speculative to plain and back emits a token twice
  (`superl8serve/engine/model_runner.py:576-591`). The model follows the code.
* `_preempt_one` is described as recomputing prompt plus generated tokens. It folds outputs that are
  kept, so a second preemption folds the first ones again.
* `_truncate_emit` is described as stopping where plain greedy stops; it ignores the window. The
  window itself counts outputs that a preemption folded into the prompt twice.
* Drafting and verification are described as leaving the matcher unchanged. The undo of the verify
  walk takes one step too many for every matching draft behind a completed grammar: it fails, or it
  takes committed tokens away. `GrammarSpec.VerifyWalk` and `GrammarSpec.WalkRestores` give the exact
  condition, `GrammarSpec.CommittedTokenLost` an input that loses a token.
* A sampler hook is described as advancing the matcher by the tokens sampled since the previous step.
  Preemption keeps `output_ids` and moves them into `prompt_ids` as well
  (`superl8serve/engine/scheduler.py:89-95`), and `all_token_ids` of such a row holds them twice, so
  its matcher is shown the folded outputs a second time (`superl8serve/engine/model_runner.py:281`
  and `superl8serve/engine/model_runner.py:630`). `Grammar.RefedExact` says when that is harmless,
  `Grammar.RefedSkips` gives a row where it is not.
* The default pool is described as never starving the scheduler
  (`superl8serve/engine/kv_cache.py:473-476`). It is sized by the window, without the overshoot of a
  speculative step, and the prefix cache may pin half of it. `Pool.DefaultPool` gives the exact
  condition under which it is nevertheless provisioned: without speculation, more spare slots than
  seats. `Scenarios.DefaultPoolRaises` is an input on which it is not: with one seat, no spare slot
  and a window of two blocks, a finished prompt of one block makes the next request raise.
* A streamed split is described as never leaking a part of a delimiter into either field
  (`superl8serve/api/reasoning.py:46-50`). Where thinking was opened neither by the prompt nor by the
  text, a partial closing marker is sent as content (`Reasoning.PartialCloseLeaks`), and
  `Reasoning.LeaksExactly` says exactly when. What is shown of open reasoning is safe
  (`Reasoning.MostThatIsSafe`).
* Preemption is described as reserved for genuine exhaustion of the block pool, because preempting at
  a count cap would thrash (`superl8serve/engine/scheduler.py:141-148`). The test does not look at the
  sequence cap: with a spare slot and a dry pool a running sequence is preempted although the cap
  alone keeps the next request out. `Engine.LLMEngine.Schedule` states exactly when; in the state that
  `Scenarios.ReachCap` reaches, a running and a waiting request change places (`Scenarios.SwapsAtCap`).

## How to read the model

A sequence is a record in the engine's table, keyed by its id, and the scheduler's lists hold ids.
The record's fields after `carry` are history kept for the proofs: they do not influence what the
modelled code does. Nondeterministic choices (`*`) stand for the drafters, the choice of packed
prefill, graph bucketing, and the speculation gate unless the engine's `gate` fixes it. A method
result `ok == false` or `None` is the source's exception.

## Model

| member | source | states |
|---|---|---|
| `Network.BlockEqualsDecodes` | superl8serve/layers/gqa_attention.py:243-292 | for any network, any number of layers and any block of tokens, running the block layer by layer gives the cache and the outputs of running its tokens one by one through all layers |
| `Network.DecodeRunSplit` | superl8serve/engine/model_runner.py:396-426 | a run over `xs + ys` is the run over `xs` followed by the run over `ys` from the cache it left: results do not depend on where a token history is cut |
| `Network.EvaluatePrefix` | superl8serve/layers/gqa_attention.py:156-196 | causality: K/V rows and outputs of the first `k` tokens do not depend on later tokens, so a rejected tail cannot change what is committed |
| `Network.EvaluateSplit` | superl8serve/engine/model_runner.py:396-426 | continuing from the cache of a history with more tokens is evaluating the whole history |
| `Network.ContinuationPicks` | superl8serve/engine/model_runner.py:729-743 | output `t` of a verify pass from a correct cache picks the greedy token after the history and the first `t + 1` verify tokens |
| `PagedForward.WriteToken` | superl8serve/engine/kv_cache.py:1083-1093 | one batched write appends exactly token `t` to every row's readable prefix and touches no slot outside the batch's targets |
| `PagedForward.BlockLayer` | superl8serve/layers/gqa_attention.py:243-292 | one attention layer of a verify or decode pass over the shared store gives every row what a run on a cache of its own gives, for any batch |
| `PagedForward.ModelForward` | superl8serve/layers/gqa_attention.py:217-292 | the whole batched pass equals consecutive decode steps row by row, and no flat slot outside the batch's targets changes |
| `PagedForward.PrefillForward` | superl8serve/layers/gqa_attention.py:102-129 | one prefill chunk computes what consecutive steps compute, although positions before `start` are read from the shared prefix instead of being written |
| `Prefill.PrefillRow` | superl8serve/engine/model_runner.py:396-426 | for every chunk size and every shared-prefix length the slot ends up holding the prompt's rows, the sampled token is the greedy one, and only blocks past the shared prefix change |
| `Prefill.PrefillChunk` | superl8serve/engine/kv_cache.py:997-1057 | one chunk extends what reads back right from the positions before it, skipping the writes a shared prefix makes unnecessary |
| `Packed.PackedForward` | superl8serve/layers/gqa_attention.py:83-104 | packed into one pass, every prompt gets the outputs of its own evaluation and its cells hold its own rows, whatever is packed beside it; only cells past a held prefix change |
| `Packed.PackedLayer` | superl8serve/layers/gqa_attention.py:83-104 | one layer of it: one write for all tokens, then attention inside each stretch over the K/V of this very pass |
| `Packed.SharedAgree` | superl8serve/engine/kv_cache.py:1059-1081 | tokens of different prompts that share a cell write the row the cell already holds, so the order of writing does not matter |
| `Packed.FreshRows` | superl8serve/layers/gqa_attention.py:83-104 | computing a history layer by layer from nothing gives the rows and outputs of its evaluation |
| `Packed.Pack` | superl8serve/engine/model_runner.py:446-462 | prompts, positions and slot mappings land end to end behind their offsets |
| `EngineState.FlatBlock` | superl8serve/engine/kv_cache.py:900-916 | a position's flat slot lies in the block its table names, at the position's offset |
| `EngineState.FlatDistinct` | superl8serve/engine/kv_cache.py:907-916 | two positions of a table without repetitions never share a flat slot |
| `EngineState.PlacesSeparate` | superl8serve/engine/kv_cache.py:900-916 | rows of one pass write to slots of their own that no other row reads or writes |
| `EngineState.HoldsFrame` | superl8serve/engine/kv_cache.py:1083-1093 | writes into other blocks leave what a table reads unchanged |
| `EngineState.SoleOwner` | superl8serve/engine/model_runner.py:721-728 | a block past a row's shared prefix is referenced by no trie entry and by no other slot |
| `EngineState.TrieFrame` | superl8serve/engine/kv_cache.py:840-878 | writes to private blocks never change what any prefix entry's blocks hold |
| `PrefixTrie.EnsureReplaced` | superl8serve/engine/kv_cache.py:853-862 | walking with `setdefault` creates the path and changes no entry, no reference and no count |
| `PrefixTrie.FillReplaced` | superl8serve/engine/kv_cache.py:853-878 | setting one node's entry changes exactly that path's entry and its references |
| `PrefixTrie.EvictReplaced` | superl8serve/engine/kv_cache.py:762-811 | removing an entry and pruning empty nodes changes exactly that path's entry and its references |
| `PrefixTrie.ScanRoot` | superl8serve/engine/kv_cache.py:762-790 | the scan finds an entry with minimal stamp, of several on one path the shortest, or none exactly when the trie has no entry |
| `PrefixTrie.EntryCounted` | superl8serve/engine/kv_cache.py:855-878 | the references an entry holds to a block are part of the trie's total |
| `PagedCache.PagedKVCache.constructor` | superl8serve/engine/kv_cache.py:439-550 | the fresh pool accounts for every block |
| `PagedCache.PagedKVCache.Alloc` | superl8serve/engine/kv_cache.py:703-706 | the last free slot is taken; its table is empty |
| `PagedCache.PagedKVCache.Free` | superl8serve/engine/kv_cache.py:708-720 | the slot's references go and its blocks are recycled only when nobody else refers to them; counts stay exact |
| `PagedCache.PagedKVCache.GrowSlot` | superl8serve/engine/kv_cache.py:738-749 | a table grows by fresh blocks to exactly the need, fails exactly when the pool is too small, and the pool is consistent either way |
| `PagedCache.PagedKVCache.EnsureCapacity` | superl8serve/engine/kv_cache.py:738-749 | only the listed slots grow, by blocks nobody owned, each to exactly its need; the error comes exactly when the slots, served in order, need more blocks than are free, and it leaves every count exact, the pool dry and one slot short |
| `PagedCache.PagedKVCache.ShareBlocks` | superl8serve/engine/kv_cache.py:751-755 | an empty slot becomes one more owner of the matched blocks |
| `PagedCache.PagedKVCache.ReleaseBlocks` | superl8serve/engine/kv_cache.py:708-720 | dropping references keeps the account exact and frees a block exactly when its last reference goes |
| `PagedCache.PagedKVCache.EvictOnePrefix` | superl8serve/engine/kv_cache.py:762-811 | exactly one entry of minimal stamp goes, of several on one path the shortest, with exactly its references; a block with a live slot is not freed |
| `PagedCache.PagedKVCache.EnforcePrefixBudget` | superl8serve/engine/kv_cache.py:813-825 | on return the trie pins no more distinct blocks than allowed; entries only went away, least recently used first, and not one too many: if any went, the trie just before the last of them went still pinned more than allowed |
| `PagedCache.PagedKVCache.LookupPrefix` | superl8serve/engine/kv_cache.py:880-898 | the longest stored prefix of the query with its blocks; the entries on the way are stamped, nothing else changes |
| `PagedCache.PagedKVCache.StoreEntry` | superl8serve/engine/kv_cache.py:853-878 | one boundary: the entry exists afterwards with its blocks and the stamp of now, at most one other entry made room and it was the least recently used, and the entry limit holds |
| `PagedCache.PagedKVCache.StorePrefix` | superl8serve/engine/kv_cache.py:840-878 | a prompt without a whole block changes nothing; any other is stored by one walk under a new stamp, and then eviction stops at the first state within the budget; new entries lie on block-aligned prefixes of the prompt and name its blocks, older ones keep theirs, limit and budget hold; what was lost is what was least recently used; if the limits have room for it every prefix is stored and none is lost |
| `PagedCache.PagedKVCache.StoreWalk` | superl8serve/engine/kv_cache.py:853-878 | the walk keeps this, although it may evict on its own path; the number of entries never falls, and nothing is lost or left out unless it has reached the limit |
| `Retention.WholeWalk` | superl8serve/engine/kv_cache.py:853-878 | if the entry limit can hold as many entries as the prompt has whole blocks, the walk stores every boundary, however full the cache was |
| `Retention.OwnPromptStays` | superl8serve/engine/kv_cache.py:872-878 | if limit and budget have room for the prompt's own entries and blocks, those included under which its boundaries were stored earlier, it is stored whole and stays stored, however full the cache was: the eviction its arrival causes takes none of its entries |
| `Retention.StoredThenFound` | superl8serve/engine/kv_cache.py:880-898 | and a lookup of it then matches up to its last whole block |
| `Blocks.TakeBlock` | superl8serve/engine/kv_cache.py:738-749 | moving a free block to a table's end keeps every block accounted for |
| `Blocks.ReleaseAccounted` | superl8serve/engine/kv_cache.py:708-720 | dropping one reference: the block is freed exactly at zero and no other block is affected |
| `Blocks.PinnedInPool` | superl8serve/engine/kv_cache.py:813-825 | the trie can never pin more distinct blocks than the pool has |
| `Blocks.FreeNotPinned` | superl8serve/engine/scheduler.py:107-112 | a free block means the trie pins fewer blocks than the pool has |
| `Greedy.StaysOnTrack` | superl8serve/engine/model_runner.py:861-873 | greedy tokens that pass no stopping point on the way lie on the request's own run |
| `Greedy.GreedyFromEnds` | superl8serve/engine/sequence.py:107-121 | the reference run ends, is done where it ends, was not done before, and all its tokens are greedy |
| `Sequences.FoldedStops` | superl8serve/engine/sequence.py:107-124 | a sequence with folded outputs still stops exactly where its own request stops |
| `Sequences.GreedyStepOnTrack` | superl8serve/engine/llm_engine.py:250-253 | one greedy token keeps an unfinished sequence on its own run |
| `Sequences.FirstTokenOnTrack` | superl8serve/engine/model_runner.py:321-367 | the token of a prefill, also of a recomputed one, keeps it there |
| `Sequences.TruncateEmit` | superl8serve/engine/model_runner.py:861-873 | the kept prefix is everything unless budget or first EOS cut it, at least one token, with no EOS strictly inside |
| `Sequences.AcceptRow` | superl8serve/engine/model_runner.py:774-823 | the longest matching draft prefix is accepted, its surviving part emitted, and the true token after it carried exactly when the row goes on |
| `Sequences.AcceptedIsGreedy` | superl8serve/engine/model_runner.py:779-796 | whatever was drafted, every accepted token is greedy and so is the next base |
| `Sequences.SpecStepOnTrack` | superl8serve/engine/model_runner.py:774-823 | a speculative step with any drafts leaves a sequence on its own run |
| `Sequences.NotDoneBefore` | superl8serve/engine/model_runner.py:861-873 | no stopping point lies strictly inside what a step emits, given room in the window |
| `Sequences.AcceptedExcused` | superl8serve/engine/model_runner.py:774-823 | a request that fits its window never overruns it in a speculative step |
| `EngineRows.RowForward` | superl8serve/engine/model_runner.py:718-743 | a pass from a held history leaves the slot holding history and fed tokens, and picks greedy tokens |
| `EngineRows.RowAfter` | superl8serve/engine/model_runner.py:718-743 | for a decode, bootstrap or verify row: the promise survives the pass and the answers are greedy if the row is on its run |
| `EngineRows.RowKeeps` | superl8serve/engine/model_runner.py:721-728 | a pass that appends leaves everything below its base readable |
| `EngineRows.AdmitRow` | superl8serve/engine/scheduler.py:128-138 | an admitted sequence's slot reads the shared prefix of its own prompt |
| `EngineRows.FillRow` | superl8serve/engine/model_runner.py:321-367 | after prefill the slot reads the prompt and the first token is on the run |
| `EngineRows.StoreRow` | superl8serve/engine/llm_engine.py:254-256 | after storing, the blocks past the prompt's whole blocks still belong to the row alone |
| `EngineRows.PreemptRow` | superl8serve/engine/scheduler.py:82-105 | a preempted running sequence may wait and restart on its run if nothing was folded before |
| `EngineRows.FinishRow` | superl8serve/engine/scheduler.py:160-170 | a finished sequence is at its stop, and on its run it has exactly the output it would have alone |
| `EngineRows.DecodeRow` | superl8serve/engine/model_runner.py:931-950 | a plain step keeps the row's promise |
| `EngineRows.BootstrapRow` | superl8serve/engine/model_runner.py:639-664 | the bootstrap pass establishes the carry: the greedy token after everything fed, with K/V right through `length` |
| `EngineRows.NoDraftRow` | superl8serve/engine/model_runner.py:674-690 | committing the carry without a verify pass keeps the promise |
| `EngineRows.VerifyRow` | superl8serve/engine/model_runner.py:736-806 | a verified row keeps the promise whatever was drafted, including the rejected K/V it wrote past its length |
| `EngineRows.TouchedWorld` | superl8serve/engine/kv_cache.py:880-898 | a lookup changes no row's and no entry's content |
| `EngineRows.SharedWorld` | superl8serve/engine/kv_cache.py:751-755 | sharing trie blocks with a new slot takes nothing from any row |
| `EngineRows.FreedWorld` | superl8serve/engine/kv_cache.py:708-720 | freeing a slot changes no other row's content |
| `EngineRows.GrownWorld` | superl8serve/engine/kv_cache.py:738-749 | growing slots changes no content |
| `EngineRows.WrittenWorld` | superl8serve/engine/model_runner.py:721-728 | no decode or verify write lands in a block of a prefix entry or of another row |
| `EngineRows.StoredWorld` | superl8serve/engine/kv_cache.py:840-878 | new prefix entries hold exactly the K/V of their own path, and no other row loses a private block |
| `EngineLists.AdmitState` | superl8serve/engine/scheduler.py:122-140 | admission keeps the engine invariant |
| `EngineLists.RequeueState` | superl8serve/engine/scheduler.py:82-105 | preemption keeps the engine invariant |
| `EngineLists.RetireState` | superl8serve/engine/scheduler.py:160-170 | finishing keeps the engine invariant |
| `EngineLists.EvictedOrder` | superl8serve/engine/scheduler.py:82-86 | preemption takes exactly the preempted out of the running list; the others stand as they stood |
| `Lists.OrderFixes` | superl8serve/engine/scheduler.py:160-170 | which members of a list stay, and that they stay in order, fixes the list that is left |
| `EngineLists.CancelState` | superl8serve/engine/scheduler.py:55-80 | cancelling a running sequence keeps the engine invariant |
| `EngineLists.FillState` | superl8serve/engine/model_runner.py:321-367 | prefilling a batch member keeps the engine invariant |
| `EngineLists.StoreState` | superl8serve/engine/llm_engine.py:254-256 | storing its prompt keeps the engine invariant |
| `EngineLists.ForwardState` | superl8serve/engine/model_runner.py:718-743 | a batched pass keeps the engine invariant |
| `EngineLists.IdleRoom` | superl8serve/engine/scheduler.py:141-158 | with nothing running a block is free exactly when the trie does not pin the whole pool, and a slot exactly when there is one |
| `EngineLists.WorkDrops` | superl8serve/engine/llm_engine.py:281-300 | if one sequence has less left and none has more, the total left falls |
| `Capacity.DryBound` | superl8serve/engine/scheduler.py:107-112 | a dry pool holds no more blocks than the live tables and the trie, and fewer if a live table is short |
| `Capacity.SeatsTaken` | superl8serve/engine/scheduler.py:122-127 | as many live sequences as slots leave no slot free |
| `Capacity.NeverDry` | superl8serve/engine/scheduler.py:141-158 | with the pool at least as large as the prefix budget and all seats' longest tables, a dry pool leaves no seat, no free slot and no table with room to grow |
| `Pool.DefaultPool` | superl8serve/engine/kv_cache.py:472-476 | a pool of as many blocks per slot as the window needs, half of it for prefixes, is provisioned if and only if the spare slots hold more blocks than the seats may need beyond half of their own, the draft overshoot included |
| `Pool.ProvisionedExactly` | superl8serve/engine/kv_cache.py:472-476 | the condition is exact: a pool is provisioned if and only if no consistent pool without a free block, with tables and trie within the bounds, has a free slot or a live table with room to grow |
| `Pool.DryStarvesSomebody` | superl8serve/engine/kv_cache.py:738-749 | otherwise such a pool is constructed: the trie pins its budget and every other block is dealt out to the seats |
| `Pool.DryStarvesNobody` | superl8serve/engine/kv_cache.py:738-749 | a provisioned pool is dry only with every seat taken, no slot free and every live table at its cap |
| `Pool.Deal` | superl8serve/engine/kv_cache.py:738-749 | dealing out all free blocks table by table keeps every count exact, gives no table more than its cap, and leaves one short if blocks are missing |
| `Scenarios.DefaultPoolRaises` | superl8serve/engine/kv_cache.py:472-476 | the failing input: with the default pool for one seat and a window of 32, a finished prompt of 16 tokens makes `ensure_capacity` fail for the next prompt of 17 other tokens, which is alone in the cache |
| `Runs.RunPreempts` | superl8serve/engine/scheduler.py:82-105 | over any run, whose steps preempt exactly under block pressure, a record counts exactly the preemptions of its sequence |
| `Runs.RunMisfed` | superl8serve/engine/model_runner.py:576-591 | a sequence is misfed only if a plain decode step passed over a carry it held and a speculative step came later |
| `Runs.RunIsGreedy` | superl8serve/engine/llm_engine.py:225-257 | a request preempted at most once whose slot was never torn gets only greedy tokens of its own, whatever else ran and whatever its window |
| `Runs.RunningInOrder` | superl8serve/engine/scheduler.py:114-170 | over any run the running list stands in the order in which its members were last admitted, whoever was preempted, finished or readmitted in between |
| `Runs.VictimsInOrder` | superl8serve/engine/scheduler.py:82-85 | in every step of a run each preempted sequence is, of those still running, one with the fewest outputs, and of these the one admitted first |
| `Engine.LLMEngine.constructor` | superl8serve/engine/scheduler.py:34-47 | a new engine satisfies the invariant |
| `Engine.LLMEngine.AddRequest` | superl8serve/engine/llm_engine.py:183-193 | a request joins the end of the queue as a new sequence unless its prompt exceeds the window; the engine stays provisioned exactly if the request fits |
| `Engine.LLMEngine.AdmitOne` | superl8serve/engine/scheduler.py:128-138 | the head of the queue moves into the batch with the last free slot, whose table is its longest stored prefix |
| `Engine.LLMEngine.FillBatch` | superl8serve/engine/scheduler.py:120-140 | the batch is a prefix of the queue, fits the token budget from the second member on, respects the sequence cap, gives each member the longest prefix of its prompt that was stored before, takes no block off the free list, and ends only for want of requests, a slot, a block, tokens or the cap |
| `Engine.LLMEngine.PreemptOne` | superl8serve/engine/scheduler.py:82-105 | the first running sequence with the fewest outputs leaves; unfinished it goes to the back of the queue with its context folded and its count of preemptions one higher; its slot is emptied and the trie stays |
| `Engine.LLMEngine.Schedule` | superl8serve/engine/scheduler.py:114-158 | a sequence is preempted if and only if a request waits, sequences run, a slot is free and no block is; each victim is the first of those left with the fewest outputs, it leaves only while those before it have not freed a single block, and on return to decoding the pressure is over or `max_num_seqs` have left; never an empty batch while there is room; with nothing running, an empty batch exactly when there is none; arrival order; none is preempted twice, none in a provisioned engine; whoever is not preempted changes in place only |
| `Scenarios.ReachCap` | superl8serve/engine/scheduler.py:141-156 | a reachable engine at its sequence cap under block pressure: one seat taken, one request waiting, a slot free, the only block in use |
| `Scenarios.SwapsAtCap` | superl8serve/engine/scheduler.py:141-156 | in that state, and in any engine with one seat like it, the scheduler preempts the running sequence, puts it in the queue and admits the waiting one: the two change places |
| `Scenarios.ReachStarvation` | superl8serve/engine/scheduler.py:141-158 | a reachable engine whose prefix cache holds its whole pool after one finished request: nothing runs and a request waits |
| `Scenarios.StaysStarved` | superl8serve/engine/scheduler.py:141-158 | such an engine admits nobody and stays as it is, at this and every later step |
| `Engine.LLMEngine.FillOne` | superl8serve/engine/model_runner.py:321-367 | one prefilled sequence gets the greedy token after its prompt |
| `Engine.LLMEngine.PrefillBatch` | superl8serve/engine/model_runner.py:321-335 | every batch member gets its greedy first token, serially or packed; it fails if and only if the prompts need more blocks, beside their shared ones, than are free, the same condition for both ways; never in a provisioned engine; the cache stays consistent |
| `Engine.LLMEngine.PrefillPacked` | superl8serve/engine/model_runner.py:429-488 | one launch for the whole batch: every member gets the token its own prompt yields, and nobody else reads anything new, although shared prefixes are written again; the same exact failure condition |
| `Engine.LLMEngine.PackedPass` | superl8serve/engine/model_runner.py:446-482 | prompts, positions and slot mappings laid end to end: afterwards every member's table reads its whole prompt, and the token read at the end of its stretch is the greedy one |
| `EnginePack.PackShared` | superl8serve/engine/model_runner.py:455-462 | two tokens of the pack share a cell only inside prefixes that both prompts matched |
| `EnginePack.PackedState` | superl8serve/engine/model_runner.py:429-488 | the packed pass keeps the engine invariant: every running sequence and every prefix entry reads what it read |
| `Engine.LLMEngine.StoreBatch` | superl8serve/engine/llm_engine.py:254-256 | the prompts of the batch are stored one after the other, each as `StorePrefix` does; the block budget holds, and if the limits have room for all whole blocks of the batch every block-aligned prefix of every prompt is stored |
| `Engine.LLMEngine.PrefillStep` | superl8serve/engine/llm_engine.py:233-256 | exactly when the prompts fit the pool every member gets its greedy first token, is stored, and joins the end of the running list in queue order unless it is done |
| `Engine.LLMEngine.Postprocess` | superl8serve/engine/scheduler.py:160-170 | the running list becomes the old one with the batch behind it, without the finished members: who stays is exactly who is not done, and any two that stay stand as they stood; exactly the finished are marked and give back their slots |
| `Engine.LLMEngine.Forward` | superl8serve/engine/model_runner.py:718-743 | every fed row gets its own answers and every sequence keeps its promise |
| `Engine.LLMEngine.DecodePlain` | superl8serve/engine/model_runner.py:931-950 | every running sequence gains exactly one token, the greedy one after its context unless its slot is torn, and a held carry becomes stale; it fails only when the pool is dry and a row has no room left for the pass |
| `Engine.LLMEngine.Bootstrap` | superl8serve/engine/model_runner.py:639-664 | exactly the rows without a carry get one, the greedy token; it fails only when the pool is dry and a row has no room left for the pass |
| `Engine.LLMEngine.NoDraft` | superl8serve/engine/model_runner.py:674-690 | every running sequence commits exactly its carry and holds none afterwards |
| `Engine.LLMEngine.Verify` | superl8serve/engine/model_runner.py:699-823 | every running sequence is accepted against its own draft and the greedy tokens after its own context, for any drafts and any padding: what it emits, carries and records is determined; it fails only when the pool is dry and a row has no room left for the pass |
| `Engine.LLMEngine.DecodeSpec` | superl8serve/engine/model_runner.py:594-846 | a speculative step over any drafts and any mix of fresh, carrying and draftless rows: each first carries its own token or the greedy one, and unless nobody drafted anything each is then verified with its own draft; each gains greedy tokens of its own context unless its carry was stale, none is left with a stale carry, no other history changes; it fails only when the pool is dry and a row has no room left for the pass |
| `Engine.LLMEngine.Decode` | superl8serve/engine/model_runner.py:576-591 | so does a decode step whichever way the gate goes, and a fixed gate fixes its kind |
| `Engine.DraftBucket` | superl8serve/engine/model_runner.py:848-859 | the width never cuts a draft, is one of the captured ones, and is the smallest that fits |
| `Engine.FewestOutputs` | superl8serve/engine/scheduler.py:82-85 | the first of the sequences with the fewest outputs |
| `Engine.LLMEngine.Step` | superl8serve/engine/llm_engine.py:225-257 | one step keeps the invariant, changes no request and strictly lowers the tokens left if there was room and work; every sequence is preempted as often as its record says, gains only greedy tokens of its context, and becomes misfed only by a speculative step over a stale carry; the scheduler's lists move as they should: the preempted line up behind the queue, its head joins behind those who stayed, the finished leave, nobody else changes place; it preempts exactly under block pressure, by the rule of `Schedule`, fails only when the pool is dry and a sequence needs a block, and a provisioned engine does neither |
| `Engine.LLMEngine.Cancel` | superl8serve/engine/llm_engine.py:204-223 | true exactly for a queued or running request, which is dropped with its slot; otherwise nothing changes; nobody else is affected, and both lists keep their order |
| `Engine.LLMEngine.Forget` | superl8serve/engine/llm_engine.py:198-202 | the record of a request that is over goes, nothing else |
| `Engine.LLMEngine.Generate` | superl8serve/engine/llm_engine.py:281-300 | generation terminates; it fails only for an over-length prompt or when a sequence needs a block of a dry pool; the final records are the end of a run of steps from the queued requests, whose every preemption started from block pressure and took the sequences with the fewest outputs; a request that the run neither preempted nor, by a changing gate or a short window, unbound gets exactly its own greedy output; in an engine provisioned for its requests, with a fixed gate and room in the window, no step fails and every output is the one its prompt would get alone |
| `Engine.LLMEngine.FinishedAlone` | superl8serve/engine/llm_engine.py:225-257 | isolation in any reachable state: a finished request has exactly its own greedy output if it met no unbinding event, and with a fixed gate and room in the window it met none unless it was preempted, which a provisioned engine never does |
| `Engine.LLMEngine.SchedulerInvariant` | superl8serve/engine/scheduler.py:114-170 | between steps every known request is in exactly one place, and at most `max_num_seqs` unfinished sequences run, on pairwise different slots that are not free |
| `Engine.LLMEngine.ContentInvariant` | superl8serve/engine/kv_cache.py:997-1093 | in every reachable state a running sequence, however often preempted and whatever its window, reads through its block table the K/V of the tokens it was fed at each committed position, every prefix entry holds the K/V of its path, and what lies past the committed positions belongs to the row alone; the one exception, a slot torn by a stale carry, lasts until it is recomputed |
| `Engine.LLMEngine.KeptHere` | superl8serve/engine/llm_engine.py:225-257 | at every moment between steps, what a faithful request has so far is a prefix of its own greedy output |
| `Limits.PlainStepKeepsRun` | superl8serve/engine/model_runner.py:576-591 | a row survives a plain step followed by a speculative one under every network if and only if it holds no carry at the plain step |
| `Limits.RepeatedTokenTears` | superl8serve/engine/model_runner.py:576-591 | a network that repeats the token: the tokens still agree, but one position is never written and the next step attends over the hole |
| `Limits.StaleCarryEmitted` | superl8serve/engine/model_runner.py:576-591 | a concrete run where the stale carry is emitted and the output differs from greedy |
| `Limits.PreemptRebuildsContext` | superl8serve/engine/scheduler.py:89-95 | the recomputed context is the sequence's own history if and only if nothing was folded before |
| `Limits.SecondPreemptionRepeats` | superl8serve/engine/scheduler.py:89-95 | a concrete sequence whose second preemption repeats folded tokens and changes its output |
| `Limits.WindowOverrun` | superl8serve/engine/model_runner.py:861-873 | whatever is drafted, a speculative step with up to `k` drafts emits nothing past a stopping point if and only if the window has room for the most it may emit |
| `Limits.WindowOverrunEmitted` | superl8serve/engine/model_runner.py:861-873 | a concrete row that may emit past its window |
| `Limits.FoldedWindow` | superl8serve/engine/sequence.py:107-121 | a folded sequence stops where its own request does, exactly outside the band in which the window counts the folded outputs twice |
| `Limits.FoldedWindowCuts` | superl8serve/engine/sequence.py:107-121 | a concrete request that one preemption makes stop a token early |
| `Drafters.NgramDrafter.constructor` | superl8serve/engine/drafters.py:50-56 | bounds are normalised |
| `Drafters.NgramDrafter.Propose` | superl8serve/engine/drafters.py:58-79 | non-empty exactly when a suffix repeats, and then what followed the most recent earlier occurrence of the longest one |
| `Drafters.MatchesAreSpecific` | superl8serve/engine/drafters.py:58-79 | that occurrence is unique |
| `Drafters.NgramDrafter.CouldMatchAfter` | superl8serve/engine/drafters.py:81-96 | true if and only if some next token makes `Propose` non-empty |
| `Drafters.ExactGate` | superl8serve/engine/drafters.py:81-96 | half a match now is a whole match after the right token, and conversely |
| `Drafters.CascadeDraft` | superl8serve/engine/drafters.py:160-179 | the first tier with a proposal wins, and a one-token head keeps the draft budget |
| `Bitmask.SingleSetBit` | superl8serve/structured.py:30-45 | a token exactly when it is the only one the mask allows |
| `Bitmask.SetAllows` | superl8serve/structured.py:30-45 | setting a token's bit allows that token and no other |
| `Grammar.WalkSplit` | superl8serve/structured.py:126-135 | showing the matcher a history in two parts is showing it the whole |
| `Grammar.GrammarLogitsProcessor.Advance` | superl8serve/structured.py:144-147 | a legal token is accepted, any other leaves the walk where it was |
| `Grammar.GrammarLogitsProcessor.Rewind` | superl8serve/structured.py:149-152 | undo restores the walk exactly, and fails beyond the history or the rollback budget |
| `Grammar.GrammarLogitsProcessor.Sync` | superl8serve/structured.py:126-135 | the matcher catches up to exactly the generated tokens and the watermark to the total length; the first call only anchors |
| `Grammar.GrammarLogitsProcessor.Call` | superl8serve/structured.py:94-117 | the same, and the scores are masked for that position |
| `Grammar.GrammarLogitsProcessor.MaskRow` | superl8serve/structured.py:214-222 | in place, illegal tokens drop to minus infinity; a complete grammar masks nothing |
| `Grammar.GrammarLogitsProcessor.NextSingleton` | superl8serve/structured.py:154-162 | a token exactly when the grammar forces it |
| `Grammar.GrammarLogitsProcessor.ForcedRun` | superl8serve/structured.py:164-206 | every token is legal where it stands; the run is made of forced tokens and, with a tokenizer and where none is forced, of what the grammar takes of the forced string; it is shorter than allowed only where neither goes on |
| `Grammar.PickAccepted` | superl8serve/structured.py:214-222 | the best masked token of an incomplete grammar is legal |
| `Grammar.AnchorExact` | superl8serve/structured.py:126-135 | anchoring late loses nothing if and only if the matcher would have refused it all |
| `Grammar.RefedExact` | superl8serve/engine/model_runner.py:281-284 | a preempted row shows its matcher the outputs twice; the matcher is where it should be if and only if it refuses every one of them in the state they lead to |
| `Grammar.RefedAlways` | superl8serve/engine/scheduler.py:89-95 | under every grammar that is so if and only if nothing had been generated |
| `Grammar.RefedSkips` | superl8serve/engine/scheduler.py:89-95 | a concrete grammar and row whose forced next token changes by one preemption |
| `GrammarSpec.GrammarDrafter.Propose` | superl8serve/engine/drafters.py:123-157 | drafting only peeks: the matcher is restored exactly, or its undo budget was too small; what is proposed is the forced run behind the base token, and it is shorter than the room only where nothing more is forced; the error comes only with a forced run as long as the undo budget |
| `GrammarSpec.VerifyWalk` | superl8serve/engine/model_runner.py:745-772 | with `w` the number of leading drafts that are their masked truths, computed from the inputs alone: masked truths up to slot `w`, plain ones behind; the undo of `w + 1` steps fails if and only if the walk has taken fewer or the matcher keeps fewer; where the matcher ends in either case; it is restored if and only if the grammar is complete before none of those drafts and the undo budget suffices |
| `GrammarSpec.WalkRestores` | superl8serve/engine/model_runner.py:745-772 | along a row's own run that is so if and only if no draft is right although the grammar is complete before it |
| `GrammarSpec.DraftMatchesPastEnd` | superl8serve/engine/model_runner.py:745-772 | a concrete grammar, complete after the base token, and a draft that is the unmasked favourite: two steps are counted and one is taken |
| `GrammarSpec.CommittedTokenLost` | superl8serve/engine/model_runner.py:745-772 | there the undo succeeds and takes a token that was committed before |
| `GrammarSpec.WalkIsTrue` | superl8serve/engine/model_runner.py:745-772 | those truths are what mask-then-argmax decoding would pick |
| `GrammarSpec.EmittedConstrained` | superl8serve/engine/model_runner.py:774-806 | every emitted token is such a pick, whatever was drafted |
| `GrammarSpec.BasePick` | superl8serve/engine/model_runner.py:656-664 | the base token of a constrained row is the masked pick |
| `GrammarSpec.CommitBase` | superl8serve/engine/model_runner.py:684-690 | a step without drafts leaves matcher and watermark in step |
| `GrammarSpec.VerifyConstrainedRow` | superl8serve/engine/model_runner.py:745-819 | a constrained speculative step of a row that was never preempted emits masked-greedy tokens only, within its budget and up to the first EOS: the base token and the drafts behind it up to the first wrong one, whose place the next masked pick takes as the carry; its matcher accepted exactly the generated tokens unless a draft was right past the grammar's end or the undo budget was exceeded, the only cases in which the undo can fail; exactly when it does is stated over the inputs |
| `GrammarSpec.SpecConstrained` | superl8serve/engine/model_runner.py:594-846 | a whole speculative step of a constrained row, for any drafts: it commits the masked base token alone if there are none, and otherwise takes the drafts behind it up to the first wrong one; it stays on the masked run and leaves the matcher in step |
| `GrammarSpec.NeverPastEnd` | superl8serve/engine/model_runner.py:745-772 | if the grammar is complete only after an EOS along the row's masked run, no draft is right past its end unless the base token is the EOS |
| `GrammarSpec.StopsEndsAtEos` | superl8serve/structured.py:214-222 | so it is for every network and prompt when the EOS is the only token that completes the grammar |
| `GrammarSpec.Resync` | superl8serve/engine/model_runner.py:627-630 | what the matcher of a preempted row is shown, and exactly when that leaves it where it should be |
| `GrammarSpec.ConstrainedRun` | superl8serve/engine/model_runner.py:594-846 | a whole constrained request, however plain and speculative steps alternate and whatever is drafted, gets exactly what mask-then-argmax decoding gives, cut at the budget or the first EOS; it gives up only behind an EOS base where the undo of some drafts fails |
| `Worker.EngineWorker.SubmitRequest` | superl8serve/api/runtime.py:145-160 | a handle joins the inbox; a closed worker refuses unless the client read the flag before |
| `Worker.EngineWorker.Abandon` | superl8serve/api/runtime.py:180-205 | a cancellation is queued exactly when the stream is not over; the handle remembers that its consumer went away |
| `Worker.EngineWorker.Close` | superl8serve/api/runtime.py:131-143 | the stop marker is queued once |
| `Worker.EngineWorker.TakeSubmit` | superl8serve/api/runtime.py:289-308 | a submission becomes pending with a sequence of its own |
| `Worker.EngineWorker.TakeCancel` | superl8serve/api/runtime.py:310-342 | first in, first out: the request has been registered; its stream ends with one `Done`, and a late cancellation changes nothing |
| `Worker.EngineWorker.CancelHandle` | superl8serve/api/runtime.py:310-342 | all tokens so far, one `Done(Cancelled)`, one finish record that says the same, and the engine forgets the sequence; only an abandoned stream can be cancelled |
| `Worker.CancelFindsHandle` | superl8serve/api/runtime.py:49-56 | no cancellation overtakes its submission |
| `Worker.Deliver` | superl8serve/api/runtime.py:344-370 | exactly the unsent tokens are put in order; a finished sequence gets its record and its `Done` once, both with the same reason: `Length` if and only if the budget or the window is full, `Stop` if and only if neither is and the last token is the EOS |
| `Worker.EngineWorker.DeliverAll` | superl8serve/api/runtime.py:344-366 | every pending stream is caught up or over, no other stream changes |
| `Worker.EngineWorker.ForgetEnded` | superl8serve/api/runtime.py:367-370 | exactly the finished sequences leave the pending table and the engine; the others stay pending in order |
| `Worker.EngineWorker.StepEngine` | superl8serve/api/runtime.py:232-237 | a step keeps what was sent a prefix of what is generated; it is an exception only when the pool is dry and a sequence needs a block, never in a provisioned engine |
| `Worker.EngineWorker.Turn` | superl8serve/api/runtime.py:207-273 | every turn of the loop, at any point of any interleaving, keeps the protocol and goes where the loop goes: a worker with work drains the inbox and steps without waiting, an idle one may gather a burst first, every step is followed by its delivery; an item it takes is applied and leaves the inbox, a stop marker it finds goes behind everything that was there, and nothing else happens to the inbox; streams only grow and nothing follows a `Done`; the worker stops only with nothing pending, and an exception ends it only when a sequence needs a block of a dry pool or on an over-length prompt |
| `Worker.EngineWorker.RunDry` | superl8serve/api/runtime.py:207-237 | left alone, the worker ends with nothing pending: blocked with every stream over, stopped with every stream over except exactly those whose submission is behind the stop marker, or by an exception, which a provisioned engine never raises |
| `Worker.EngineWorker.Delivered` | superl8serve/api/runtime.py:344-370 | at every moment: tokens, at most one `Done`, nothing after it; each telemetry record at most once, the finish record with the `Done`, its reason and the number of tokens; a stream that was not abandoned ends for a reason its own sequence gives |
| `LinearAttn.ConvSplit` | superl8serve/layers/linear_attn.py:252-286 | cutting the input anywhere and carrying the tail changes neither outputs nor final tail |
| `LinearAttn.ConvSees` | superl8serve/layers/linear_attn.py:252-286 | output `t` sees exactly the `k` raw inputs that end with input `t`, the carried ones first |
| `LinearAttn.TailAfter` | superl8serve/layers/linear_attn.py:252-286 | trajectory entry `t` is the tail after exactly `t + 1` tokens |
| `LinearAttn.ConvVerify` | superl8serve/layers/linear_attn.py:288-314 | the token-by-token verify loop gives the outputs, tail and trajectory of one call |
| `LinearAttn.Scatter` | superl8serve/layers/linear_attn.py:497-505 | tokens land behind their sequence's gap, everything else stays zero |
| `LinearAttn.StretchOf` | superl8serve/layers/linear_attn.py:497-505 | each packed sequence's stretch of the stream is its own zero-padded input |
| `LinearAttn.ConvSegmented` | superl8serve/layers/linear_attn.py:485-512 | one convolution over the zero-separated stream gives every sequence, empty or short ones too, the outputs and trailing window of its own serial call |
| `LinearAttn.RecurrentDelta` | superl8serve/layers/linear_attn.py:47-81 | over a whole head: every value channel's outputs, final state, and state after every token are those of its own recurrence; every token rewrites every channel's row by the delta rule, and every output reads the rewritten row |
| `LinearAttn.DeltaReads` | superl8serve/layers/linear_attn.py:71-76 | what any vector reads of the state after a token: its decayed reading, plus the gated error of the decayed prediction at the key as far as it shares the key |
| `LinearAttn.DeltaRewrites` | superl8serve/layers/linear_attn.py:71-76 | the delta rule: at a key of length 1 the state then reads `alpha * (1 - beta)` times what it read before plus `beta` times the value, exactly the value when `beta` is 1; anything orthogonal to the key reads `alpha` times what it read before |
| `LinearAttn.RewrittenOnce` | superl8serve/layers/linear_attn.py:71-76 | these readings fix the state |
| `LinearAttn.DeltaSplit` | superl8serve/layers/linear_attn.py:47-81 | cutting the input anywhere and carrying the state changes nothing |
| `LinearAttn.DeltaOutsSplit` | superl8serve/layers/linear_attn.py:47-81 | nor the output at any token |
| `LinearAttn.CommitAccepted` | superl8serve/layers/linear_attn.py:288-314 | committing the trajectory entry of the last accepted token equals having decoded only the accepted tokens |
| `LinearAttn.Reparameterised` | superl8serve/layers/linear_attn.py:180-192 | with no clamp active the decayed state is the cumulative decay times the state of the decay-free kernel on scaled values |
| `LinearAttn.DecayReads` | superl8serve/layers/linear_attn.py:180-192 | without the erase term a token decays every reading and adds its value as far as the key is shared; where the state holds nothing for the key that is the delta rule |
| `LinearAttn.PlainReads` | superl8serve/layers/linear_attn.py:180-192 | the decay-free kernel adds the scaled value as far as the key is shared |
| `LinearAttn.DecayViaPlain` | superl8serve/layers/linear_attn.py:180-192 | so rescaled outputs and final state are those of the decayed recurrence, from any carried state and for any length |
| `Reasoning.WithoutPartialClose` | superl8serve/api/reasoning.py:35-40 | the longest suffix that could start a closing marker is withheld, nothing else |
| `Reasoning.MostThatIsSafe` | superl8serve/api/reasoning.py:35-40 | what is shown of an open text is the most that is safe: a character is shown if and only if no continuation of the text begins a closing marker at or before it |
| `Reasoning.SplitSays` | superl8serve/api/reasoning.py:43-68 | a split is what the text says and nothing else is: opening marker if present, reasoning without a marker in it, the first closing marker, content; without a closing marker all of it is reasoning or all of it content; a stream shows of open reasoning the most that is safe |
| `Reasoning.ReasoningHasNoMarker` | superl8serve/api/reasoning.py:43-68 | no reasoning that is ever shown contains a closing marker |
| `Reasoning.LeaksExactly` | superl8serve/api/reasoning.py:46-50 | a stream shows the beginning of the marker that closes the text if and only if thinking was opened neither by the prompt nor by the text, and the text ends like a marker begins |
| `Reasoning.PartialCloseLeaks` | superl8serve/api/reasoning.py:46-59 | a concrete text whose partial marker is sent as content |
| `Reasoning.PartialGrows` | superl8serve/api/reasoning.py:35-40 | what is shown never shrinks as the text grows |
| `Reasoning.FieldsGrow` | superl8serve/api/reasoning.py:43-68 | both fields only grow along prefixes that open the same way |
| `Reasoning.LosslessExactly` | superl8serve/api/app.py:344-386 | deltas reassemble to the final split for every growing chain of decoded prefixes if and only if the text is clean for the prompt |
| `Reasoning.ChatStream.ChunksFor` | superl8serve/api/app.py:344-370 | the chunks carry exactly the fields' deltas, at most one of each field and reasoning first, none empty, the role on the very first only |
| `Reasoning.Stream` | superl8serve/api/app.py:371-386 | a whole stream of clean text joins to what the text says |
| `Diffusion.QuotaKeepsSchedule` | superl8serve/engine/decode_strategy.py:57-60 | each step's count lies between the schedule's floor and ceiling and keeps it on schedule |
| `Diffusion.TopK` | superl8serve/engine/decode_strategy.py:62-62 | distinct masked positions, none less confident than one left out |
| `Diffusion.FilledOnce` | superl8serve/engine/decode_strategy.py:43-70 | a position is filled in one step only and keeps for good the best token for what the model saw then |
| `Diffusion.MaskStays` | superl8serve/engine/decode_strategy.py:29-43 | until its step a position holds the mask, so that is what every forward pass sees there |
| `Diffusion.NoneLost` | superl8serve/engine/decode_strategy.py:43-70 | every position is filled or still masked, never both |
| `Diffusion.UnmaskStep` | superl8serve/engine/decode_strategy.py:51-67 | exactly the chosen positions change, to their best tokens |
| `Diffusion.Generate` | superl8serve/engine/decode_strategy.py:43-83 | the output is what its steps make of the masks: each forward pass sees the mask at exactly the positions not yet filled, each step fills an equal share of them, rounded down and at least one, the most confident ones by what the model said about the sequence the steps before left; their sizes are balanced and add up to the whole block, and the sampling fallback, which draws a token for every position, is reached only without any step |
| `Repetition.RepetitionCache.RepetitionTokenIds` | superl8serve/engine/sequence.py:85-105 | the incrementally maintained set is the set of all tokens so far |

## Left out

- Sequence objects are records in a table; the aliasing of one Python object from the queue, the
  running list and `_out` appears as one key.
- The first token's append, done in `step` after the runner returns, happens in the per-sequence
  prefill and decode steps of the model.
- K/V quantisation, floating-point rounding and the kernels: a K/V row is an uninterpreted
  deterministic result, prefill attention and decode attention are the same function, and the
  recurrences are over the reals.
- CUDA graphs, streams, static buffers and pinned staging; the graph-captured prefill and decode paths.
- MTP heads and their prefix-KV cache: an MTP draft is one more arbitrary draft.
- Sampling with temperature, repetition penalty in the sampler, vision inputs, sliding windows.
- `KVEviction.compact` and its policies, which free blocks without consulting reference counts.
- `LLMEngine.encode` and the worker's encode requests, which take whatever batch the scheduler returns.
- The memory probes of the speculation gate; the gate is arbitrary in the model.
- The recurrent state cache's slot bookkeeping: only the recurrences, trajectories and commits are modelled.
- Telemetry beyond the start, first-token and finish records; timing and metrics of idle coalescing.
- Tool-call streaming, HTTP routes, schemas and tokenizers; decoded text is a growing chain of prefixes.
- XGrammar's internals: the matcher is a deterministic automaton over what it accepted, with undo.
- Prompts are non-empty: an empty prompt has no last position to sample from.
- Engine.LLMEngine.Step: a block pool that runs dry in the middle of a batch is an exception; afterwards only the cache's own invariant is claimed, as the source does not repair its lists.
- Engine.LLMEngine.DecodePlain: for a sequence whose slot a stale carry has torn the step only says that one token is appended, since its cache no longer promises anything until it is recomputed.
- The varlen attention kernel is taken to be causal attention inside each stretch that `cu_seqlens` marks.
- LinearAttn.RecurrentDelta: stated for one head of one batch row; heads and batch rows are a batch dimension of every operation.
- GrammarSpec.ConstrainedRun: one row's steps; that the batch around it does not matter is the engine's part. A constrained row that is preempted is covered by `Resync` and `Grammar.RefedExact` only.
- Scratch slots that graph objects pin for ever: with them fewer slots are free than `num_slots` says.
- LinearAttn.ConvSegmented: the convolution is any function of the last `k` inputs of one channel group, so weights and activation are not spelled out.
