/** The engine's whole state as a value, its invariant, and what each scheduler and runner
    transition does to it. */
module EngineLists {
  import opened Options
  import opened Lists
  import opened Network
  import opened Greedy
  import opened Sequences
  import opened PagedForward
  import opened PrefixTrie
  import opened Blocks
  import opened PagedCache
  import opened EngineState
  import opened EngineRows

  type Table = map<nat, Sequence>

  /** The scheduler's lists, the table of sequences and the cache, at one moment. `k` members
      of the batch have reached phase `done`; the others are still in phase `todo`. */
  datatype State = State(
    w: World, free: seq<nat>,
    waiting: seq<nat>, running: seq<nat>, seqs: Table, nextId: nat,
    batch: seq<nat>, k: nat, done: Phase, todo: Phase
  ) {
    predicate Live(id: nat) {
      id in running || id in batch
    }
  }

  ghost predicate Listed(st: State) {
    && NoDup(st.waiting) && NoDup(st.running) && NoDup(st.batch) && st.k <= |st.batch|
    && (forall id :: id in st.running ==> id !in st.batch)
    && (forall id :: id in st.waiting || st.Live(id) ==> id in st.seqs)
    && (forall id :: id in st.seqs ==> id < st.nextId)
  }

  /** Every sequence keeps the promise of its place. */
  ghost predicate Promised(st: State)
    requires Listed(st)
  {
    && (forall id :: id in st.waiting ==> WaitOk(st.w.net, st.w.eos, st.seqs[id]))
    && (forall id :: id in st.running ==> RowOk(st.w, Live, st.seqs[id]))
    && (forall i :: 0 <= i < |st.batch| ==> RowOk(st.w, if i < st.k then st.done else st.todo, st.seqs[st.batch[i]]))
    && (forall id :: id in st.seqs ==> id in st.waiting || st.Live(id) || FinOk(st.w.net, st.w.eos, st.seqs[id]))
  }

  /** Live sequences sit on distinct taken slots, and no other slot is taken. */
  ghost predicate Seated(st: State)
    requires Listed(st)
  {
    && NoDup(st.free) && (forall s :: s in st.free ==> s < |st.w.tables| && st.w.tables[s] == [])
    && (forall a :: st.Live(a) ==> SeatOk(st.seqs[a], st.free, |st.w.tables|))
    && (forall a, b :: st.Live(a) && st.Live(b) && a != b ==> st.seqs[a].slot != st.seqs[b].slot)
    && (forall s :: 0 <= s < |st.w.tables| && s !in st.free ==> Taken(st, s))
  }

  ghost predicate SeatOk(q: Sequence, free: seq<nat>, numSlots: nat) {
    q.slot.Some? && q.slot.value < numSlots && q.slot.value !in free
  }

  ghost predicate Taken(st: State, s: nat)
    requires Listed(st)
  {
    exists a :: st.Live(a) && st.seqs[a].slot == Some(s)
  }

  ghost predicate StateOk(st: State) {
    WorldOk(st.w) && Listed(st) && Promised(st) && Seated(st)
  }

  /** A sequence's request never changes, its outputs only grow, and once it is unbound from
      its own run it stays so. */
  ghost predicate Evolves(q: Sequence, r: Sequence) {
    && r.Req() == q.Req() && q.outputs <= r.outputs && (r.exact ==> q.exact)
    && q.preempts <= r.preempts && (q.misfed ==> r.misfed)
    && (q.status == Finished ==> r == q)
  }

  /** What a step executes. */
  datatype Kind = Prefilling | Decoding | Speculating

  /** What executing a step does to a sequence: tokens are appended to an unchanged context, each
      the greedy successor of everything before it unless the slot has a hole. Only a speculative
      step over a stale carry tears one, and only a plain step over a held carry makes it stale. */
  ghost predicate Worked(net: Net, q: Sequence, r: Sequence, kind: Kind) {
    && r.Req() == q.Req() && r.prompt == q.prompt && r.fold == q.fold && r.preempts == q.preempts
    && q.outputs <= r.outputs
    && (r.misfed ==> q.misfed || (kind == Speculating && q.stale)) && (r.spoiled ==> q.spoiled || (kind == Speculating && q.stale))
    && (r.stale ==> q.stale || (kind == Decoding && q.carry.Some?)) && (r.verified ==> q.verified || kind == Speculating)
    && (!r.spoiled && q.prompt != [] && q.fold <= |q.outputs| ==> GreedyTail(net, r.Fed(), |q.Fed()|))
  }

  /** What scheduling does to a sequence: a preempted one is folded, and otherwise only its place
      changes. */
  ghost predicate Rescheduled(q: Sequence, r: Sequence, moved: bool) {
    && (moved ==> q.status == Running)
    && var p := if moved then Preempt(q) else q;
       r == p.(slot := r.slot, matched := r.matched, status := r.status)
  }

  /** Member `i` of `ids` is the first one with the fewest generated tokens. */
  ghost predicate FirstFewest(seqs: Table, ids: seq<nat>, i: nat) {
    && i < |ids| && (forall id :: id in ids ==> id in seqs)
    && (forall j :: 0 <= j < |ids| ==> |seqs[ids[i]].outputs| <= |seqs[ids[j]].outputs|)
    && (forall j :: 0 <= j < i ==> |seqs[ids[i]].outputs| < |seqs[ids[j]].outputs|)
  }

  /** Taking the `moved` out of `ran` one by one, each the first of those left with the fewest
      generated tokens, leaves `left`. */
  ghost predicate Evicted(seqs: Table, ran: seq<nat>, moved: seq<nat>, left: seq<nat>) {
    if moved == [] then left == ran
    else exists mid, i :: Evicted(seqs, ran, Init(moved), mid) && EvictedNext(seqs, mid, i, Last(moved), left)
  }

  ghost predicate EvictedNext(seqs: Table, mid: seq<nat>, i: nat, id: nat, left: seq<nat>) {
    FirstFewest(seqs, mid, i) && mid[i] == id && left == Without(mid, i)
  }

  lemma EvictOne(seqs: Table, ran: seq<nat>, moved: seq<nat>, mid: seq<nat>, i: nat)
    requires Evicted(seqs, ran, moved, mid) && FirstFewest(seqs, mid, i)
    ensures Evicted(seqs, ran, moved + [mid[i]], Without(mid, i))
  {
    assert Init(moved + [mid[i]]) == moved && Last(moved + [mid[i]]) == mid[i];
    assert EvictedNext(seqs, mid, i, mid[i], Without(mid, i));
  }

  /** Who is left stands as it stood, and the others have moved. */
  lemma {:induction false} EvictedOrder(seqs: Table, ran: seq<nat>, moved: seq<nat>, left: seq<nat>)
    requires Evicted(seqs, ran, moved, left) && NoDup(ran)
    ensures SameOrder(ran, left) && NoDup(left) && NoDup(moved)
    ensures forall id :: id in left <==> id in ran && id !in moved
    ensures forall id :: id in moved ==> id in ran
  {
    hide FirstFewest, SameOrder, NoDup, Without;
    if moved == [] {
      OrderKept(ran);
      NoDupNil<nat>();
    } else {
      var mid: seq<nat>, i: nat :| Evicted(seqs, ran, Init(moved), mid) && EvictedNext(seqs, mid, i, Last(moved), left);
      EvictedOrder(seqs, ran, Init(moved), mid);
      FirstMember(seqs, mid, i);
      NoDupWithout(mid, i);
      OrderWithout(mid, i);
      OrderTransitive(ran, mid, left);
      assert moved == Init(moved) + [Last(moved)] && mid[i] in mid;
      NoDupAppend(Init(moved), Last(moved));
    }
  }

  lemma FirstMember(seqs: Table, ids: seq<nat>, i: nat)
    requires FirstFewest(seqs, ids, i)
    ensures i < |ids|
  {
  }

  /** The tables once the sequences `ids` gave up their slots. */
  function Vacated(tables: seq<seq<nat>>, seqs: Table, ids: seq<nat>): (r: seq<seq<nat>>)
    ensures |r| == |tables|
  {
    if ids == [] then tables
    else
      var rest, id := Vacated(tables, seqs, Init(ids)), Last(ids);
      if id in seqs && seqs[id].slot.Some? && seqs[id].slot.value < |tables| then rest[seqs[id].slot.value := []] else rest
  }

  /** Every block has an owner. */
  ghost predicate Dry(tables: seq<seq<nat>>, trie: Node, numBlocks: nat) {
    forall b: nat :: b < numBlocks ==> Owners(tables, trie, b) > 0
  }

  /** Each of the `moved` left when those before it had not freed a single block. */
  ghost predicate NoneTooMany(seqs: Table, tables: seq<seq<nat>>, trie: Node, moved: seq<nat>, numBlocks: nat) {
    forall j :: 0 <= j < |moved| ==> Dry(Vacated(tables, seqs, moved[..j]), trie, numBlocks)
  }

  lemma NoneMoved(seqs: Table, tables: seq<seq<nat>>, trie: Node, numBlocks: nat)
    ensures NoneTooMany(seqs, tables, trie, [], numBlocks) && Vacated(tables, seqs, []) == tables
  {
  }

  lemma OneMore(seqs: Table, tables: seq<seq<nat>>, trie: Node, moved: seq<nat>, numBlocks: nat, id: nat)
    requires NoneTooMany(seqs, tables, trie, moved, numBlocks)
    requires Dry(Vacated(tables, seqs, moved), trie, numBlocks)
    requires id in seqs && seqs[id].slot.Some? && seqs[id].slot.value < |tables|
    ensures NoneTooMany(seqs, tables, trie, moved + [id], numBlocks)
    ensures Vacated(tables, seqs, moved + [id]) == Vacated(tables, seqs, moved)[seqs[id].slot.value := []]
  {
    hide Dry;
    assert Init(moved + [id]) == moved && Last(moved + [id]) == id;
    forall j | 0 <= j <= |moved| ensures Dry(Vacated(tables, seqs, (moved + [id])[..j]), trie, numBlocks) {
      assert (moved + [id])[..j] == moved[..j];
      assert moved[..|moved|] == moved;
    }
  }

  lemma NothingFree(rc: map<nat, nat>, numBlocks: nat, tables: seq<seq<nat>>, trie: Node)
    requires Balanced(rc, [], numBlocks, tables, trie)
    ensures Dry(tables, trie, numBlocks)
  {
    forall b: nat | b < numBlocks ensures Owners(tables, trie, b) > 0 {
      assert Accounted(b, rc, [], numBlocks, Owners(tables, trie, b));
    }
  }

  ghost predicate AllRescheduled(was: Table, now: Table, moved: seq<nat>) {
    now.Keys == was.Keys && forall id :: id in was ==> Rescheduled(was[id], now[id], id in moved)
  }

  ghost predicate AllWorked(net: Net, was: Table, now: Table, kind: Kind) {
    now.Keys == was.Keys && forall id :: id in was ==> Worked(net, was[id], now[id], kind)
  }

  /** One engine step from `was` to `now`: the `moved` were preempted, once each, and then every
      sequence was worked on or left alone. */
  ghost predicate StepOf(net: Net, was: Table, now: Table, moved: seq<nat>, kind: Kind) {
    && now.Keys == was.Keys
    && forall id :: id in was ==> Advanced(net, was[id], now[id], id in moved, kind)
  }

  ghost predicate Advanced(net: Net, q: Sequence, r: Sequence, moved: bool, kind: Kind) {
    (moved ==> q.status == Running) && Worked(net, if moved then Preempt(q) else q, r, kind)
  }

  lemma StepComposed(net: Net, was: Table, mid: Table, now: Table, moved: seq<nat>, kind: Kind)
    requires AllRescheduled(was, mid, moved) && AllWorked(net, mid, now, kind)
    ensures StepOf(net, was, now, moved, kind)
  {
    hide GreedyTail;
    forall id | id in was ensures Advanced(net, was[id], now[id], id in moved, kind) {
      assert Rescheduled(was[id], mid[id], id in moved) && Worked(net, mid[id], now[id], kind);
    }
  }

  lemma AdmitReschedules(first: Table, was: Table, now: Table, moved: seq<nat>, id: nat)
    requires AllRescheduled(first, was, moved) && id in was && id in now && now == was[id := now[id]]
    requires exists slot, matched :: now[id] == Admit(was[id], slot, matched)
    ensures AllRescheduled(first, now, moved)
  {
    hide Preempt;
  }

  lemma PreemptReschedules(first: Table, was: Table, now: Table, moved: seq<nat>, id: nat)
    requires AllRescheduled(first, was, moved) && id in was && was[id] == first[id] && was[id].status == Running
    requires now == was[id := Preempt(was[id])]
    ensures AllRescheduled(first, now, moved + [id])
  {
    forall x | x in first ensures Rescheduled(first[x], now[x], x in moved + [id]) {
      assert Rescheduled(first[x], was[x], x in moved);
    }
  }

  lemma NothingRescheduled(seqs: Table)
    ensures AllRescheduled(seqs, seqs, [])
  {
  }

  /** Nothing was moved in the second part. */
  lemma RescheduledOn(first: Table, was: Table, now: Table, moved: seq<nat>)
    requires AllRescheduled(first, was, moved) && AllRescheduled(was, now, [])
    ensures AllRescheduled(first, now, moved)
  {
    hide Preempt;
    forall x | x in first ensures Rescheduled(first[x], now[x], x in moved) {
      assert Rescheduled(first[x], was[x], x in moved) && Rescheduled(was[x], now[x], x in []);
    }
  }

  lemma AllWorkedSame(net: Net, seqs: Table, kind: Kind)
    ensures AllWorked(net, seqs, seqs, kind)
  {
    forall id | id in seqs ensures Worked(net, seqs[id], seqs[id], kind) { WorkedSame(net, seqs[id], kind); }
  }

  /** A sequence nobody touches. */
  lemma WorkedSame(net: Net, q: Sequence, kind: Kind)
    ensures Worked(net, q, q, kind)
  {
  }

  ghost predicate AllEvolve(was: Table, now: Table) {
    now.Keys == was.Keys && forall id :: id in was ==> Evolves(was[id], now[id])
  }

  // ---- requests ------------------------------------------------------------------

  lemma NewRequest(st: State, q: Sequence)
    requires StateOk(st) && WaitOk(st.w.net, st.w.eos, q)
    ensures StateOk(st.(waiting := st.waiting + [st.nextId], seqs := st.seqs[st.nextId := q], nextId := st.nextId + 1))
  {
    hide RowOk, WorldOk, Seated, Promised;
    var id := st.nextId;
    var now := st.(waiting := st.waiting + [id], seqs := st.seqs[id := q], nextId := id + 1);
    NoDupAppend(st.waiting, id);
    assert Listed(now);
    NewPromised(st, q);
    SeatsKept(st, now);
  }

  lemma NewPromised(st: State, q: Sequence)
    requires StateOk(st) && WaitOk(st.w.net, st.w.eos, q)
    requires Listed(st.(waiting := st.waiting + [st.nextId], seqs := st.seqs[st.nextId := q], nextId := st.nextId + 1))
    ensures Promised(st.(waiting := st.waiting + [st.nextId], seqs := st.seqs[st.nextId := q], nextId := st.nextId + 1))
    ensures forall s :: s in st.free ==> s < |st.w.tables|
  {
    hide RowOk, WorldOk, WaitOk, FinOk;
    forall i | 0 <= i < |st.batch| ensures st.batch[i] != st.nextId { assert st.batch[i] in st.batch; }
  }

  /** A slot stays taken while its holder stays live and keeps it. */
  lemma TakenStays(st: State, now: State, s: nat)
    requires Listed(st) && Listed(now) && Taken(st, s)
    requires forall a :: st.Live(a) && st.seqs[a].slot == Some(s) ==> now.Live(a) && now.seqs[a].slot == Some(s)
    ensures Taken(now, s)
  {
  }

  lemma TakenBy(st: State, s: nat, a: nat)
    requires Listed(st) && st.Live(a) && st.seqs[a].slot == Some(s)
    ensures Taken(st, s)
  {
  }

  // ---- admission -----------------------------------------------------------------

  /** The blocks a lookup returns belong to an entry of the trie and hold its path. */
  lemma MatchedEntry(w: World, trie: Node, prompt: seq<Token>, matched: nat, blocks: seq<nat>, stamp: nat)
    requires WorldOk(w) && Distinct(trie)
    requires LongestMatch(w.trie, prompt, matched, blocks) && Touched(w.trie, trie, prompt, stamp)
    ensures matched <= |prompt| && |blocks| * w.bs == matched && NoDup(blocks)
    ensures forall b :: b in blocks ==> Refs(trie, b) > 0
    ensures Holds(w.net, w.store, blocks, w.bs, prompt[..matched])
  {
    var path := prompt[..matched];
    if matched > 0 {
      assert At(trie, path).Some? && At(trie, path).value.blocks == blocks;
      EntryCounted(trie, path);
      forall b | b in blocks ensures Refs(trie, b) > 0 {
        OccursIn(blocks, b);
        assert EntryRefs(At(trie, path), b) <= Refs(trie, b);
      }
    } else {
      assert path == [];
      HoldsNothing(w.net, w.store, blocks, w.bs);
    }
  }

  /** The state after the head of the queue was given the last free slot and `blocks`. */
  function Admitting(st: State, trie: Node, matched: nat, blocks: seq<nat>): State
    requires st.waiting != [] && st.free != [] && st.waiting[0] in st.seqs && Last(st.free) < |st.w.tables|
  {
    var id, slot := st.waiting[0], Last(st.free);
    st.(w := st.w.(trie := trie, tables := st.w.tables[slot := blocks]), free := Init(st.free),
        waiting := st.waiting[1..], batch := st.batch + [id],
        seqs := st.seqs[id := Admit(st.seqs[id], slot, matched)])
  }

  lemma AdmitWorld(w: World, trie: Node, prompt: seq<Token>, slot: nat, matched: nat, blocks: seq<nat>, stamp: nat)
    requires WorldOk(w) && Distinct(trie) && slot < |w.tables| && w.tables[slot] == []
    requires LongestMatch(w.trie, prompt, matched, blocks)
    requires Touched(w.trie, trie, prompt, stamp) && SameRefs(w.trie, trie)
    ensures
      var w' := w.(trie := trie, tables := w.tables[slot := blocks]);
      && WorldOk(w')
      && (forall phase, q :: RowOk(w, phase, q) && q.slot.value != slot ==> RowOk(w', phase, q))
      && (forall q :: WaitOk(w.net, w.eos, q) && q.prompt == prompt ==> RowOk(w', Admitted, Admit(q, slot, matched)))
  {
    MatchedEntry(w, trie, prompt, matched, blocks, stamp);
    TouchedWorld(w, trie, prompt, stamp);
    SharedWorld(w.(trie := trie), slot, blocks);
    var w' := w.(trie := trie, tables := w.tables[slot := blocks]);
    forall q | WaitOk(w.net, w.eos, q) && q.prompt == prompt ensures RowOk(w', Admitted, Admit(q, slot, matched)) {
      AdmitRow(w', q, slot, matched);
    }
  }

  lemma AdmitState(st: State, trie: Node, matched: nat, blocks: seq<nat>, stamp: nat)
    requires StateOk(st) && st.waiting != [] && st.free != [] && st.k == 0 && st.todo == Admitted && Distinct(trie)
    requires LongestMatch(st.w.trie, st.seqs[st.waiting[0]].prompt, matched, blocks)
    requires Touched(st.w.trie, trie, st.seqs[st.waiting[0]].prompt, stamp) && SameRefs(st.w.trie, trie)
    ensures Last(st.free) < |st.w.tables|
    ensures StateOk(Admitting(st, trie, matched, blocks))
  {
    hide RowOk, WorldOk, WaitOk, FinOk, Taken, Touched, LongestMatch, SameRefs, Distinct;
    var id, slot := st.waiting[0], Last(st.free);
    assert id in st.waiting && slot in st.free;
    AdmitWorld(st.w, trie, st.seqs[id].prompt, slot, matched, blocks, stamp);
    LiveNotWaiting(st, id);
    NoDupAppend(st.batch, id);
    var now := Admitting(st, trie, matched, blocks);
    assert Listed(now);
    AdmitPromised(st, trie, matched, blocks);
    AdmitSeated(st, trie, matched, blocks);
  }

  lemma AdmitPromised(st: State, trie: Node, matched: nat, blocks: seq<nat>)
    requires StateOk(st) && st.waiting != [] && st.free != [] && st.k == 0 && st.todo == Admitted
    requires Last(st.free) < |st.w.tables| && Last(st.free) in st.free && !st.Live(st.waiting[0])
    requires Listed(Admitting(st, trie, matched, blocks))
    requires
      var w, q := Admitting(st, trie, matched, blocks).w, st.seqs[st.waiting[0]];
      && (forall phase, r :: RowOk(st.w, phase, r) && r.slot.value != Last(st.free) ==> RowOk(w, phase, r))
      && RowOk(w, Admitted, Admit(q, Last(st.free), matched))
    ensures Promised(Admitting(st, trie, matched, blocks))
  {
    hide RowOk, WorldOk, WaitOk, FinOk, Taken;
    var id, now := st.waiting[0], Admitting(st, trie, matched, blocks);
    forall a | a in st.running ensures RowOk(now.w, Live, now.seqs[a]) {
      assert st.Live(a) && RowOk(st.w, Live, st.seqs[a]) && SeatOk(st.seqs[a], st.free, |st.w.tables|);
    }
    forall i | 0 <= i < |st.batch| ensures RowOk(now.w, Admitted, now.seqs[st.batch[i]]) {
      assert st.Live(st.batch[i]) && RowOk(st.w, Admitted, st.seqs[st.batch[i]]);
      assert SeatOk(st.seqs[st.batch[i]], st.free, |st.w.tables|);
    }
  }

  lemma AdmitSeated(st: State, trie: Node, matched: nat, blocks: seq<nat>)
    requires Listed(st) && Seated(st) && st.waiting != [] && st.free != [] && Last(st.free) < |st.w.tables|
    requires st.waiting[0] in st.seqs && !st.Live(st.waiting[0])
    requires Listed(Admitting(st, trie, matched, blocks))
    ensures Seated(Admitting(st, trie, matched, blocks))
  {
    hide Taken;
    var id, slot := st.waiting[0], Last(st.free);
    var now := Admitting(st, trie, matched, blocks);
    assert st.free == Init(st.free) + [slot] && slot in st.free;
    assert forall s :: s in now.free ==> s in st.free && s != slot;
    forall a | now.Live(a) ensures SeatOk(now.seqs[a], now.free, |now.w.tables|) {
      if a != id { assert SeatOk(st.seqs[a], st.free, |st.w.tables|); }
    }
    forall s | 0 <= s < |st.w.tables| && s !in now.free ensures Taken(now, s) {
      if s == slot {
        TakenBy(now, s, id);
      } else {
        TakenStays(st, now, s);
      }
    }
  }

  /** Waiting and live are different places. */
  lemma LiveNotWaiting(st: State, id: nat)
    requires StateOk(st) && id in st.waiting
    ensures !st.Live(id)
  {
    forall i | 0 <= i < |st.batch| ensures st.seqs[st.batch[i]].status == Running {
      assert RowOk(st.w, if i < st.k then st.done else st.todo, st.seqs[st.batch[i]]);
    }
    assert forall a :: a in st.running ==> RowOk(st.w, Live, st.seqs[a]);
  }

  /** Every listed id is in the table, and a waiting one is not live. */
  lemma Known(st: State)
    requires StateOk(st)
    ensures forall id :: id in st.waiting || id in st.running || id in st.batch ==> id in st.seqs
    ensures forall id :: id in st.seqs ==> id < st.nextId
    ensures forall id :: id in st.waiting ==> id !in st.running && id !in st.batch
    ensures forall id :: id in st.waiting ==> st.seqs[id].status == Waiting
    ensures NoDup(st.running) && NoDup(st.waiting) && NoDup(st.batch)
    ensures forall id :: id in st.running ==> id !in st.batch
  {
    hide RowOk, WorldOk, Seated;
    forall id | id in st.waiting ensures id !in st.running && id !in st.batch { LiveNotWaiting(st, id); }
  }

  /** A sequence on its way is running, and its shared prefix is part of its prompt. */
  lemma BatchMember(st: State, i: nat)
    requires StateOk(st) && i < |st.batch|
    ensures
      var phase := if i < st.k then st.done else st.todo;
      && st.batch[i] in st.seqs && Pure(st.w.net, st.w.eos, phase, st.seqs[st.batch[i]])
      && st.w.bs > 0
      && (phase == Filled ==>
           var q := st.seqs[st.batch[i]];
           && q.slot.Some? && q.slot.value < |st.w.tables|
           && |q.prompt| <= |st.w.tables[q.slot.value]| * st.w.bs)
  {
    hide WorldOk, WaitOk;
    BatchSeat(st, i);
    assert RowOk(st.w, if i < st.k then st.done else st.todo, st.seqs[st.batch[i]]);
  }

  /** A running sequence has a slot of its own to give back. */
  lemma RunningSeat(st: State, id: nat)
    requires StateOk(st) && id in st.running
    ensures id in st.seqs && SeatOk(st.seqs[id], st.free, |st.w.tables|)
    ensures st.seqs[id].status == Running && Pure(st.w.net, st.w.eos, Live, st.seqs[id])
  {
    hide WorldOk, WaitOk;
    assert RowOk(st.w, Live, st.seqs[id]);
  }

  // ---- updates in place ----------------------------------------------------------

  /** Same lists, same seats: only promises have to be looked at. */
  lemma SeatsKept(st: State, now: State)
    requires Listed(st) && Seated(st) && Listed(now)
    requires now.running == st.running && now.batch == st.batch && now.free == st.free
    requires |now.w.tables| == |st.w.tables|
    requires forall s :: s in st.free ==> now.w.tables[s] == st.w.tables[s]
    requires forall a :: st.Live(a) ==> now.seqs[a].slot == st.seqs[a].slot
    ensures Seated(now)
  {
    forall a | now.Live(a) ensures SeatOk(now.seqs[a], now.free, |now.w.tables|) {
      assert SeatOk(st.seqs[a], st.free, |st.w.tables|);
    }
    forall s | 0 <= s < |st.w.tables| && s !in now.free ensures Taken(now, s) {
      TakenStays(st, now, s);
    }
  }

  /** The cache changed and every live sequence's promise survived it. */
  lemma NewWorld(st: State, w: World)
    requires StateOk(st) && WorldOk(w) && w.net == st.w.net && w.eos == st.w.eos && |w.tables| == |st.w.tables|
    requires forall s :: s in st.free ==> w.tables[s] == []
    requires forall id :: id in st.running ==> RowOk(w, Live, st.seqs[id])
    requires forall i :: 0 <= i < |st.batch| ==> RowOk(w, if i < st.k then st.done else st.todo, st.seqs[st.batch[i]])
    ensures StateOk(st.(w := w))
  {
    hide RowOk, WorldOk;
    SeatsKept(st, st.(w := w));
  }

  /** One running sequence moved on. */
  lemma SetRow(st: State, id: nat, q: Sequence)
    requires StateOk(st) && id in st.running && RowOk(st.w, Live, q) && q.slot == st.seqs[id].slot
    ensures StateOk(st.(seqs := st.seqs[id := q]))
  {
    hide RowOk, WorldOk, Seated, Promised;
    var now := st.(seqs := st.seqs[id := q]);
    assert Listed(now);
    SetPromised(st, id, q);
    SeatsKept(st, now);
  }

  lemma SetPromised(st: State, id: nat, q: Sequence)
    requires StateOk(st) && id in st.running && RowOk(st.w, Live, q) && Listed(st.(seqs := st.seqs[id := q]))
    ensures Promised(st.(seqs := st.seqs[id := q])) && forall s :: s in st.free ==> s < |st.w.tables|
  {
    hide RowOk, WorldOk, WaitOk, FinOk;
    forall w | w in st.waiting ensures w != id { LiveNotWaiting(st, w); }
  }

  /** The next member of the batch reached the next phase, in a cache that may have changed. */
  lemma AdvanceRow(st: State, w: World, q: Sequence)
    requires StateOk(st) && WorldOk(w) && w.net == st.w.net && w.eos == st.w.eos && |w.tables| == |st.w.tables|
    requires st.k < |st.batch| && q.slot == st.seqs[st.batch[st.k]].slot
    requires forall s :: s in st.free ==> w.tables[s] == []
    requires forall id :: id in st.running ==> RowOk(w, Live, st.seqs[id])
    requires forall i :: 0 <= i < |st.batch| && i != st.k ==>
      RowOk(w, if i < st.k then st.done else st.todo, st.seqs[st.batch[i]])
    requires RowOk(w, st.done, q)
    ensures StateOk(st.(w := w, seqs := st.seqs[st.batch[st.k] := q], k := st.k + 1))
  {
    hide RowOk, WorldOk;
    var id := st.batch[st.k];
    assert id in st.batch;
    var now := st.(w := w, seqs := st.seqs[id := q], k := st.k + 1);
    assert Listed(now);
    forall x | x in st.waiting ensures x != id { LiveNotWaiting(st, x); }
    SeatsKept(st, now);
  }

  /** A whole batch in one phase starts on its way to the next one. */
  lemma NextPhase(st: State, todo: Phase, done: Phase)
    requires StateOk(st) && ((st.k == |st.batch| && st.done == todo) || (st.k == 0 && st.todo == todo) || st.batch == [])
    ensures StateOk(st.(k := 0, todo := todo, done := done))
  {
    hide RowOk, WorldOk;
    SeatsKept(st, st.(k := 0, todo := todo, done := done));
  }

  // ---- joining and leaving -------------------------------------------------------

  /** The prefilled and stored batch joins the running list. */
  lemma JoinState(st: State)
    requires StateOk(st) && st.k == |st.batch| && st.done == Phase.Live
    ensures StateOk(st.(running := st.running + st.batch, batch := [], k := 0))
  {
    hide RowOk, WorldOk;
    var now := st.(running := st.running + st.batch, batch := [], k := 0);
    assert forall a :: now.Live(a) <==> st.Live(a);
    assert NoDup(now.running);
    assert Listed(now);
    forall s | 0 <= s < |st.w.tables| && s !in now.free ensures Taken(now, s) {
      TakenStays(st, now, s);
    }
  }

  /** The state after running member `i` gave up its slot and became `q`. */
  function Vacating(st: State, i: nat, q: Sequence): State
    requires i < |st.running| && st.running[i] in st.seqs
  {
    var id := st.running[i];
    var slot := if st.seqs[id].slot.Some? then st.seqs[id].slot.value else 0;
    st.(w := st.w.(tables := if slot < |st.w.tables| then st.w.tables[slot := []] else st.w.tables),
        free := st.free + [slot], running := Without(st.running, i), seqs := st.seqs[id := q])
  }

  lemma VacateSeated(st: State, i: nat, q: Sequence)
    requires Listed(st) && Seated(st) && i < |st.running|
    ensures Listed(Vacating(st, i, q)) && Seated(Vacating(st, i, q))
    ensures forall a :: Vacating(st, i, q).Live(a) <==> st.Live(a) && a != st.running[i]
  {
    var id, now := st.running[i], Vacating(st, i, q);
    NoDupWithout(st.running, i);
    assert id in st.running && SeatOk(st.seqs[id], st.free, |st.w.tables|);
    var slot := st.seqs[id].slot.value;
    NoDupAppend(st.free, slot);
    assert Listed(now);
    VacateSeats(st, i, q);
    VacateTaken(st, i, q);
  }

  lemma VacateSeats(st: State, i: nat, q: Sequence)
    requires Listed(st) && Seated(st) && i < |st.running| && Listed(Vacating(st, i, q))
    requires forall a :: Vacating(st, i, q).Live(a) <==> st.Live(a) && a != st.running[i]
    ensures
      var now := Vacating(st, i, q);
      && (forall a :: now.Live(a) ==> SeatOk(now.seqs[a], now.free, |now.w.tables|))
      && (forall a, b :: now.Live(a) && now.Live(b) && a != b ==> now.seqs[a].slot != now.seqs[b].slot)
  {
    hide Taken, Without;
    var id, now := st.running[i], Vacating(st, i, q);
    assert st.Live(id) && SeatOk(st.seqs[id], st.free, |st.w.tables|);
    forall a | now.Live(a) ensures SeatOk(now.seqs[a], now.free, |now.w.tables|) {
      assert SeatOk(st.seqs[a], st.free, |st.w.tables|) && st.seqs[a].slot != st.seqs[id].slot;
    }
  }

  lemma VacateTaken(st: State, i: nat, q: Sequence)
    requires Listed(st) && Seated(st) && i < |st.running| && Listed(Vacating(st, i, q))
    requires forall a :: Vacating(st, i, q).Live(a) <==> st.Live(a) && a != st.running[i]
    ensures
      var now := Vacating(st, i, q);
      forall s :: 0 <= s < |now.w.tables| && s !in now.free ==> Taken(now, s)
  {
    hide Without;
    var id, now := st.running[i], Vacating(st, i, q);
    assert st.Live(id) && SeatOk(st.seqs[id], st.free, |st.w.tables|);
    forall s | 0 <= s < |st.w.tables| && s !in now.free ensures Taken(now, s) {
      TakenStays(st, now, s);
    }
  }

  /** A running sequence leaves for good. */
  lemma RetireState(st: State, i: nat, q: Sequence)
    requires StateOk(st) && i < |st.running| && FinOk(st.w.net, st.w.eos, q)
    ensures StateOk(Vacating(st, i, q))
  {
    hide RowOk, WorldOk;
    var id := st.running[i];
    assert id in st.running && SeatOk(st.seqs[id], st.free, |st.w.tables|);
    VacateSeated(st, i, q);
    VacateRows(st, i, q);
    forall x | x in st.waiting ensures x != id { LiveNotWaiting(st, x); }
  }

  /** A running sequence goes back to the end of the queue. */
  lemma RequeueState(st: State, i: nat, q: Sequence)
    requires StateOk(st) && i < |st.running| && WaitOk(st.w.net, st.w.eos, q)
    ensures StateOk(Vacating(st, i, q).(waiting := st.waiting + [st.running[i]]))
  {
    hide RowOk, WorldOk, WaitOk, FinOk, Seated, Promised, Without;
    var id := st.running[i];
    assert id in st.running;
    VacateSeated(st, i, q);
    VacateRows(st, i, q);
    forall x | x in st.waiting ensures x != id { LiveNotWaiting(st, x); }
    NoDupAppend(st.waiting, id);
    var mid := Vacating(st, i, q);
    var now := mid.(waiting := st.waiting + [id]);
    assert Listed(now);
    RequeuePromised(st, i, q);
    FreeSlots(mid);
    SeatsKept(mid, now);
  }

  lemma FreeSlots(st: State)
    requires Listed(st) && Seated(st)
    ensures forall s :: s in st.free ==> s < |st.w.tables|
  {
  }

  lemma RequeuePromised(st: State, i: nat, q: Sequence)
    requires StateOk(st) && i < |st.running| && WaitOk(st.w.net, st.w.eos, q) && st.running[i] !in st.waiting
    requires forall a :: Vacating(st, i, q).Live(a) <==> st.Live(a) && a != st.running[i]
    requires
      var now := Vacating(st, i, q).(waiting := st.waiting + [st.running[i]]);
      && Listed(now)
      && (forall id :: id in now.running ==> RowOk(now.w, Live, now.seqs[id]))
      && (forall j :: 0 <= j < |now.batch| ==>
           RowOk(now.w, if j < now.k then now.done else now.todo, now.seqs[now.batch[j]]))
    ensures Promised(Vacating(st, i, q).(waiting := st.waiting + [st.running[i]]))
  {
    hide RowOk, WorldOk, WaitOk, FinOk, Seated, Without;
  }

  /** The rows that stay keep their promises. */
  lemma VacateRows(st: State, i: nat, q: Sequence)
    requires StateOk(st) && i < |st.running| && Listed(Vacating(st, i, q))
    requires forall a :: Vacating(st, i, q).Live(a) <==> st.Live(a) && a != st.running[i]
    ensures
      var now := Vacating(st, i, q);
      && WorldOk(now.w)
      && (forall id :: id in now.running ==> RowOk(now.w, Live, now.seqs[id]))
      && (forall j :: 0 <= j < |now.batch| ==>
           RowOk(now.w, if j < now.k then now.done else now.todo, now.seqs[now.batch[j]]))
  {
    hide RowOk, WorldOk;
    var id, now := st.running[i], Vacating(st, i, q);
    assert id in st.running && SeatOk(st.seqs[id], st.free, |st.w.tables|);
    FreedWorld(st.w, st.seqs[id].slot.value);
    forall a | st.Live(a) && a != id ensures st.seqs[a].slot.Some? && st.seqs[a].slot.value != st.seqs[id].slot.value {
      assert SeatOk(st.seqs[a], st.free, |st.w.tables|) && st.seqs[a].slot != st.seqs[id].slot;
    }
    forall a | a in now.running ensures RowOk(now.w, Live, now.seqs[a]) {
      assert now.Live(a);
      assert RowOk(st.w, Live, st.seqs[a]);
    }
    forall j | 0 <= j < |now.batch| ensures RowOk(now.w, if j < now.k then now.done else now.todo, now.seqs[now.batch[j]]) {
      assert now.batch[j] in now.batch;
      assert RowOk(st.w, if j < st.k then st.done else st.todo, st.seqs[st.batch[j]]);
    }
  }

  /** A cancelled request is dropped from the table. */
  lemma DropState(st: State, id: nat)
    requires StateOk(st) && id !in st.waiting && !st.Live(id)
    ensures StateOk(st.(seqs := st.seqs - {id}))
  {
    hide RowOk, WorldOk;
    SeatsKept(st, st.(seqs := st.seqs - {id}));
  }

  /** A waiting request leaves the queue. */
  lemma UnqueueState(st: State, i: nat)
    requires StateOk(st) && i < |st.waiting|
    ensures StateOk(st.(waiting := Without(st.waiting, i), seqs := st.seqs - {st.waiting[i]}))
  {
    hide RowOk, WorldOk, WaitOk, FinOk, Taken, SeatOk, Without;
    var id := st.waiting[i];
    assert id in st.waiting;
    LiveNotWaiting(st, id);
    NoDupWithout(st.waiting, i);
    var now := st.(waiting := Without(st.waiting, i), seqs := st.seqs - {id});
    assert Listed(now);
    SeatsKept(st, now);
  }

  // ---- progress ------------------------------------------------------------------

  /** With nobody live, every slot is free, and a block is free exactly when the trie does not
      pin the whole pool. */
  lemma IdleRoom(st: State, rc: map<nat, nat>, freeBlocks: seq<nat>, numBlocks: nat, pins: map<nat, nat>)
    requires StateOk(st) && st.running == [] && st.batch == []
    requires Balanced(rc, freeBlocks, numBlocks, st.w.tables, st.w.trie)
    requires forall b: nat :: Counted(b, pins, Refs(st.w.trie, b))
    ensures freeBlocks != [] <==> |pins| < numBlocks
    ensures |st.w.tables| > 0 <==> st.free != []
  {
    hide RowOk, WorldOk;
    forall s | 0 <= s < |st.w.tables| ensures st.w.tables[s] == [] && s in st.free {
      assert !Taken(st, s);
    }
    if |st.w.tables| > 0 { assert 0 in st.free; }
    if st.free != [] { assert st.free[0] in st.free; }
    assert |pins| == |pins.Keys|;
    if freeBlocks != [] {
      FreeNotPinned(pins, rc, freeBlocks, numBlocks, st.w.tables, st.w.trie);
    } else if forall b :: 0 <= b < numBlocks ==> b in pins.Keys {
      AllKeys(pins.Keys, numBlocks);
    } else {
      var b :| 0 <= b < numBlocks && b !in pins.Keys;
      UnownedFree(rc, freeBlocks, numBlocks, st.w.tables, st.w.trie, pins, b);
    }
  }

  lemma UnownedFree(rc: map<nat, nat>, freeBlocks: seq<nat>, numBlocks: nat, tables: seq<seq<nat>>, trie: Node,
                    pins: map<nat, nat>, b: nat)
    requires Balanced(rc, freeBlocks, numBlocks, tables, trie) && Counted(b, pins, Refs(trie, b))
    requires (forall s :: 0 <= s < |tables| ==> tables[s] == []) && b < numBlocks && b !in pins
    ensures b in freeBlocks
  {
    TableRefsZero(tables, b);
    assert Accounted(b, rc, freeBlocks, numBlocks, Owners(tables, trie, b));
  }

  /** Prompt tokens of a batch. */
  function TokenSum(batch: seq<nat>, seqs: Table): nat
    requires forall id :: id in batch ==> id in seqs
  {
    if batch == [] then 0
    else
      assert forall id :: id in Init(batch) ==> id in batch;
      assert Last(batch) in batch;
      TokenSum(Init(batch), seqs) + |seqs[Last(batch)].prompt|
  }

  lemma {:induction false} TokenSumSame(batch: seq<nat>, was: Table, now: Table)
    requires forall id :: id in batch ==> id in was && id in now && was[id].prompt == now[id].prompt
    ensures TokenSum(batch, now) == TokenSum(batch, was)
  {
    if batch != [] {
      assert Last(batch) in batch && forall id :: id in Init(batch) ==> id in batch;
      TokenSumSame(Init(batch), was, now);
    }
  }

  // ---- prefill -------------------------------------------------------------------

  /** Live sequences' seats as list facts. */
  lemma BatchSeat(st: State, i: nat)
    requires StateOk(st) && i < |st.batch|
    ensures st.batch[i] in st.seqs && SeatOk(st.seqs[st.batch[i]], st.free, |st.w.tables|)
    ensures RowOk(st.w, if i < st.k then st.done else st.todo, st.seqs[st.batch[i]])
    ensures forall id :: id in st.running ==> st.seqs[id].slot != st.seqs[st.batch[i]].slot
    ensures forall j :: 0 <= j < |st.batch| && j != i ==> st.seqs[st.batch[j]].slot != st.seqs[st.batch[i]].slot
  {
    hide WorldOk, WaitOk, RowOk;
    assert st.batch[i] in st.batch;
    forall j | 0 <= j < |st.batch| && j != i ensures st.seqs[st.batch[j]].slot != st.seqs[st.batch[i]].slot {
      assert st.batch[j] in st.batch && st.batch[j] != st.batch[i];
    }
  }

  /** Growing live slots changes no promise. */
  lemma GrowState(st: State, tables: seq<seq<nat>>, slots: seq<nat>)
    requires StateOk(st) && OnlyGrown(st.w.tables, tables, st.w.trie, slots)
    requires forall s :: 0 <= s < |tables| ==> NoDup(tables[s])
    requires forall s :: s in slots ==> s !in st.free
    ensures StateOk(st.(w := st.w.(tables := tables)))
  {
    hide RowOk, WorldOk;
    GrownWorld(st.w, tables, slots);
    NewWorld(st, st.w.(tables := tables));
  }

  /** Prefill of the next member wrote only its own blocks. */
  lemma FillState(st: State, store: Store, tok: Token)
    requires StateOk(st) && st.k < |st.batch| && st.done == Filled && st.todo == Admitted
    requires st.batch[st.k] in st.seqs && st.seqs[st.batch[st.k]].slot.Some?
    requires
      var q := st.seqs[st.batch[st.k]];
      && q.slot.value < |st.w.tables| && st.w.bs > 0
      && Holds(st.w.net, store, st.w.tables[q.slot.value], st.w.bs, q.prompt) && tok == Next(st.w.net, q.prompt)
      && WritesWithin(st.w.net, st.w.store, store, st.w.bs, Tail(st.w.tables[q.slot.value], q.matched / st.w.bs))
    ensures
      var id := st.batch[st.k];
      StateOk(st.(w := st.w.(store := store), seqs := st.seqs[id := Prefilled(st.seqs[id], tok)], k := st.k + 1))
  {
    var id := st.batch[st.k];
    var q := st.seqs[id];
    BatchSeat(st, st.k);
    var slots, blocks := [q.slot.value], Tail(st.w.tables[q.slot.value], q.matched / st.w.bs);
    forall b | b in blocks ensures PrivateBlock(st.w.tables, st.w.trie, b, slots) {
      SoleOwner(st.w.tables, st.w.trie, q.slot.value, q.matched / st.w.bs, b, slots);
    }
    FillRow(st.w, q, store, tok);
    hide RowOk, WorldOk;
    WrittenWorld(st.w, store, slots, blocks);
    OthersHold(st, st.w.(store := store), q.slot.value);
    AdvanceRow(st, st.w.(store := store), Prefilled(q, tok));
  }

  /** A change that spares every row outside `slot` spares all but the batch member on it. */
  lemma OthersHold(st: State, w: World, slot: nat)
    requires StateOk(st) && st.k < |st.batch| && st.batch[st.k] in st.seqs && st.seqs[st.batch[st.k]].slot == Some(slot)
    requires forall phase, q :: RowOk(st.w, phase, q) && q.slot.value != slot ==> RowOk(w, phase, q)
    ensures forall id :: id in st.running ==> RowOk(w, Live, st.seqs[id])
    ensures forall i :: 0 <= i < |st.batch| && i != st.k ==>
      RowOk(w, if i < st.k then st.done else st.todo, st.seqs[st.batch[i]])
  {
    hide RowOk, WorldOk;
    BatchSeat(st, st.k);
    forall id | id in st.running ensures RowOk(w, Live, st.seqs[id]) {
      RunningSeat(st, id);
      assert RowOk(st.w, Live, st.seqs[id]);
    }
    forall i | 0 <= i < |st.batch| && i != st.k
      ensures RowOk(w, if i < st.k then st.done else st.todo, st.seqs[st.batch[i]])
    {
      BatchSeat(st, i);
    }
  }

  /** `trie` is what storing the prompt of a row with a full table makes of the trie. */
  ghost predicate StoresPrompt(w: World, trie: Node, q: Sequence, lru: nat) {
    && w.bs > 0 && Distinct(trie) && EntriesOk(trie, w.bs, lru)
    && q.slot.Some? && q.slot.value < |w.tables| && |q.prompt| / w.bs <= |w.tables[q.slot.value]|
    && StoredPath(w.trie, trie, q.prompt, w.tables[q.slot.value][..|q.prompt| / w.bs])
  }

  lemma StoredHere(w: World, trie: Node, q: Sequence, lru: nat)
    requires WorldOk(w) && RowOk(w, Filled, q) && StoresPrompt(w, trie, q, lru)
    ensures WorldOk(w.(trie := trie)) && RowOk(w.(trie := trie), Phase.Live, q)
    ensures forall phase, r :: RowOk(w, phase, r) && r.slot.value != q.slot.value ==> RowOk(w.(trie := trie), phase, r)
  {
    StoredWorld(w, trie, q.prompt, q.slot.value, lru);
    StoreRow(w, q, trie);
  }

  /** Storing the next member's prompt shares its whole blocks with the trie. */
  lemma StoreState(st: State, trie: Node, lru: nat)
    requires StateOk(st) && st.k < |st.batch| && st.done == Phase.Live && st.todo == Filled
    requires st.batch[st.k] in st.seqs && StoresPrompt(st.w, trie, st.seqs[st.batch[st.k]], lru)
    ensures StateOk(st.(w := st.w.(trie := trie), k := st.k + 1))
  {
    hide RowOk, WorldOk, StoredPath, EntriesOk, Distinct;
    var q := st.seqs[st.batch[st.k]];
    BatchSeat(st, st.k);
    StoredHere(st.w, trie, q, lru);
    OthersHold(st, st.w.(trie := trie), q.slot.value);
    AdvanceRow(st, st.w.(trie := trie), q);
    assert st.seqs[st.batch[st.k] := q] == st.seqs;
  }

  /** Every member of the batch has a slot. */
  ghost predicate SeatedIn(seqs: Table, batch: seq<nat>, numSlots: nat) {
    forall i :: 0 <= i < |batch| ==>
      && batch[i] in seqs && seqs[batch[i]].slot.Some? && seqs[batch[i]].slot.value < numSlots
  }

  function SlotsOf(seqs: Table, batch: seq<nat>): (r: seq<nat>)
    requires forall i :: 0 <= i < |batch| ==> batch[i] in seqs && seqs[batch[i]].slot.Some?
    ensures |r| == |batch| && forall i :: 0 <= i < |batch| ==> r[i] == seqs[batch[i]].slot.value
  {
    seq(|batch|, i requires 0 <= i < |batch| => seqs[batch[i]].slot.value)
  }

  function PromptsOf(seqs: Table, batch: seq<nat>): (r: seq<nat>)
    requires forall i :: 0 <= i < |batch| ==> batch[i] in seqs
    ensures |r| == |batch| && forall i :: 0 <= i < |batch| ==> r[i] == |seqs[batch[i]].prompt|
  {
    seq(|batch|, i requires 0 <= i < |batch| => |seqs[batch[i]].prompt|)
  }

  /** How many whole blocks the prompts of the batch have. */
  function WholeBlocks(seqs: Table, batch: seq<nat>, bs: nat): nat {
    if batch == [] then 0
    else (if batch[0] in seqs && bs > 0 then |seqs[batch[0]].prompt| / bs else 0) + WholeBlocks(seqs, batch[1..], bs)
  }

  lemma {:induction false} WholeBlocksSame(was: Table, now: Table, batch: seq<nat>, bs: nat)
    requires forall id :: id in batch ==> id in was && id in now && now[id].prompt == was[id].prompt
    ensures WholeBlocks(now, batch, bs) == WholeBlocks(was, batch, bs)
  {
    if batch != [] { WholeBlocksSame(was, now, batch[1..], bs); }
  }

  /** Every block-aligned prefix of every prompt of the batch has an entry. */
  ghost predicate PromptsStored(trie: Node, seqs: Table, batch: seq<nat>, bs: nat) {
    forall id :: id in batch ==> bs > 0 && id in seqs && AllStored(trie, seqs[id].prompt, |seqs[id].prompt|, bs)
  }

  /** The prompts of the batch were stored one after the other. */
  ghost predicate BatchStored(was: Node, now: Node, seqs: Table, batch: seq<nat>, bs: nat, limit: Option<nat>,
                              budget: Option<nat>)
    decreases |batch|
  {
    if batch == [] then now == was
    else exists mid :: BatchStored(was, mid, seqs, Init(batch), bs, limit, budget)
                    && StoredFor(mid, now, seqs, Last(batch), bs, limit, budget)
  }

  ghost predicate StoredFor(was: Node, now: Node, seqs: Table, id: nat, bs: nat, limit: Option<nat>, budget: Option<nat>) {
    id in seqs && Stored(was, now, seqs[id].prompt, bs, limit, budget)
  }

  lemma BatchStoredNext(first: Node, was: Node, now: Node, seqs: Table, batch: seq<nat>, k: nat, bs: nat,
                        limit: Option<nat>, budget: Option<nat>)
    requires k < |batch| && batch[k] in seqs && BatchStored(first, was, seqs, batch[..k], bs, limit, budget)
    requires Stored(was, now, seqs[batch[k]].prompt, bs, limit, budget)
    ensures BatchStored(first, now, seqs, batch[..k + 1], bs, limit, budget)
  {
    hide Stored;
    assert Init(batch[..k + 1]) == batch[..k] && Last(batch[..k + 1]) == batch[k];
    assert StoredFor(was, now, seqs, batch[k], bs, limit, budget);
  }

  lemma {:induction false} BatchStoredSame(first: Node, now: Node, was: Table, seqs: Table, batch: seq<nat>, bs: nat,
                                           limit: Option<nat>, budget: Option<nat>)
    requires BatchStored(first, now, seqs, batch, bs, limit, budget)
    requires forall id :: id in batch ==> id in was && id in seqs && was[id].prompt == seqs[id].prompt
    ensures BatchStored(first, now, was, batch, bs, limit, budget)
    decreases |batch|
  {
    hide Stored;
    if batch != [] {
      var mid :| BatchStored(first, mid, seqs, Init(batch), bs, limit, budget)
              && StoredFor(mid, now, seqs, Last(batch), bs, limit, budget);
      BatchStoredSame(first, mid, was, seqs, Init(batch), bs, limit, budget);
      assert StoredFor(mid, now, was, Last(batch), bs, limit, budget);
    }
  }

  lemma NonePromised(trie: Node, seqs: Table, bs: nat)
    ensures PromptsStored(trie, seqs, [], bs)
  {
  }

  lemma PromptStored(was: Node, now: Node, seqs: Table, batch: seq<nat>, k: nat, bs: nat)
    requires k < |batch| && batch[k] in seqs && bs > 0
    requires PromptsStored(was, seqs, batch[..k], bs) && KeptAll(was, now)
    requires AllStored(now, seqs[batch[k]].prompt, |seqs[batch[k]].prompt|, bs)
    ensures PromptsStored(now, seqs, batch[..k + 1], bs)
  {
    assert batch[..k + 1] == batch[..k] + [batch[k]];
  }

  /** The members of the batch up to `k` got their first token since `was`; nothing else changed. */
  ghost predicate FilledSince(net: Net, was: Table, now: Table, batch: seq<nat>, k: nat) {
    && now.Keys == was.Keys
    && (forall i :: 0 <= i < |batch| ==> batch[i] in was && batch[i] in now)
    && (forall i :: 0 <= i < |batch| && i < k ==> FirstToken(net, was[batch[i]], now[batch[i]]))
    && (forall i :: 0 <= i < |batch| && k <= i ==> now[batch[i]] == was[batch[i]])
    && (forall id :: id in was && id !in batch ==> now[id] == was[id])
  }

  ghost predicate FirstToken(net: Net, q: Sequence, r: Sequence) {
    q.prompt != [] && q.status == Running && q.fold == |q.outputs| && r == Prefilled(q, Next(net, q.prompt))
  }

  lemma NoneFilled(net: Net, seqs: Table, batch: seq<nat>)
    requires forall i :: 0 <= i < |batch| ==> batch[i] in seqs
    ensures FilledSince(net, seqs, seqs, batch, 0)
  {
  }

  lemma NotYetFilled(net: Net, was: Table, now: Table, batch: seq<nat>, k: nat)
    requires FilledSince(net, was, now, batch, k) && k < |batch|
    ensures batch[k] in was && batch[k] in now && now[batch[k]] == was[batch[k]]
  {
  }

  lemma FilledStep(net: Net, first: Table, was: Table, now: Table, batch: seq<nat>, k: nat)
    requires FilledSince(net, first, was, batch, k) && k < |batch| && NoDup(batch)
    requires batch[k] in now && now == was[batch[k] := now[batch[k]]] && FirstToken(net, was[batch[k]], now[batch[k]])
    ensures FilledSince(net, first, now, batch, k + 1)
  {
    hide FirstToken;
    assert batch[k] in batch;
  }

  lemma FilledEvolves(net: Net, was: Table, now: Table, batch: seq<nat>, k: nat)
    requires FilledSince(net, was, now, batch, k)
    ensures AllEvolve(was, now) && AllWorked(net, was, now, Prefilling)
  {
    hide Worked;
    forall id | id in was ensures Evolves(was[id], now[id]) && Worked(net, was[id], now[id], Prefilling) {
      WorkedSame(net, was[id], Prefilling);
      if id in batch {
        var i :| 0 <= i < |batch| && batch[i] == id;
        assert i < k ==> FirstToken(net, was[batch[i]], now[batch[i]]);
        if i < k { FilledWorks(net, was[id]); }
      }
    }
  }

  /** A prefill changes no prompt. */
  lemma FilledPrompts(net: Net, was: Table, now: Table, batch: seq<nat>, trie: Node, bs: nat)
    requires FilledSince(net, was, now, batch, |batch|)
    ensures WholeBlocks(now, batch, bs) == WholeBlocks(was, batch, bs)
    ensures PromptsStored(trie, now, batch, bs) ==> PromptsStored(trie, was, batch, bs)
    ensures forall id :: id in batch ==> id in was && id in now && was[id].prompt == now[id].prompt
  {
    hide AllStored, Prefilled;
    forall id | id in batch ensures id in was && id in now && now[id].prompt == was[id].prompt {
      var i :| 0 <= i < |batch| && batch[i] == id;
      assert FirstToken(net, was[batch[i]], now[batch[i]]);
      PrefilledPrompt(was[id], Next(net, was[id].prompt));
    }
    WholeBlocksSame(was, now, batch, bs);
  }

  lemma PrefilledPrompt(q: Sequence, tok: Token)
    ensures Prefilled(q, tok).prompt == q.prompt
  {
  }

  /** Finishing only marks sequences that are done. */
  ghost predicate Retired(eos: Option<Token>, was: Table, now: Table) {
    && now.Keys == was.Keys
    && forall id :: id in was ==>
         now[id] == was[id] || (was[id].IsFinished(eos) && was[id].status == Running && now[id] == was[id].(status := Finished))
  }

  /** `left` is `all` without the sequences that are done: who stays is who is not done, and any
      two that stay stand as they stood. */
  ghost predicate Sifted(eos: Option<Token>, seqs: Table, all: seq<nat>, left: seq<nat>) {
    && SameOrder(all, left)
    && (forall id :: id in left <==> id in all && !(id in seqs && seqs[id].IsFinished(eos)))
  }

  /** Finishing changes nothing about who is done. */
  lemma RetiredSifts(eos: Option<Token>, was: Table, now: Table, all: seq<nat>, left: seq<nat>)
    requires Retired(eos, was, now)
    ensures Sifted(eos, was, all, left) <==> Sifted(eos, now, all, left)
    ensures forall id :: id in was ==> id in now && now[id].IsFinished(eos) == was[id].IsFinished(eos)
  {
    hide SameOrder, FinishReason;
  }

  lemma SiftedLeft(eos: Option<Token>, seqs: Table, all: seq<nat>, left: seq<nat>)
    requires Sifted(eos, seqs, all, left)
    ensures SameOrder(all, left)
    ensures forall id :: id in left ==> id in all && !(id in seqs && seqs[id].IsFinished(eos))
  {
    hide SameOrder, FinishReason;
  }

  lemma SiftedNone(eos: Option<Token>, seqs: Table)
    ensures Sifted(eos, seqs, [], [])
  {
  }

  lemma SiftedNext(eos: Option<Token>, seqs: Table, all: seq<nat>, left: seq<nat>, id: nat)
    requires Sifted(eos, seqs, all, left) && id in seqs && (seqs[id].IsFinished(eos) || id !in all)
    ensures Sifted(eos, seqs, all + [id], if seqs[id].IsFinished(eos) then left else left + [id])
  {
    hide FinishReason;
    var now := if seqs[id].IsFinished(eos) then left else left + [id];
    assert forall x :: x in all + [id] <==> x in all || x == id;
    assert forall x :: x in now <==> x in left || (x == id && !seqs[id].IsFinished(eos));
    OrderJoined(all, left, [id]);
    OrderPrefix(all, left, [id]);
  }

  /** The scheduler's lists over one step. The `moved` left the running list for the end of the
      queue; the head of the queue joined the end of the running list; who is done then left it.
      Nobody else changed place. */
  ghost predicate Shifted(eos: Option<Token>, was: Table, now: Table, ran: seq<nat>, queue: seq<nat>, moved: seq<nat>,
                          running: seq<nat>, waiting: seq<nat>) {
    exists left, batch :: Evicted(was, ran, moved, left) && Joined(eos, now, left, queue + moved, batch, running, waiting)
  }

  ghost predicate Joined(eos: Option<Token>, now: Table, left: seq<nat>, queue: seq<nat>, batch: seq<nat>,
                         running: seq<nat>, waiting: seq<nat>) {
    queue == batch + waiting && Sifted(eos, now, left + batch, running)
  }

  lemma RetiredEvolves(eos: Option<Token>, was: Table, now: Table)
    requires Retired(eos, was, now)
    ensures AllEvolve(was, now)
  {
  }

  /** Marking finished sequences changes nothing else about a step's work. */
  lemma RetiredWorks(net: Net, eos: Option<Token>, was: Table, mid: Table, now: Table, kind: Kind)
    requires AllWorked(net, was, mid, kind) && Retired(eos, mid, now)
    ensures AllWorked(net, was, now, kind)
  {
    hide GreedyTail, FinishReason;
    forall id | id in was ensures Worked(net, was[id], now[id], kind) {
      assert Worked(net, was[id], mid[id], kind);
    }
  }

  // ---- decode --------------------------------------------------------------------

  /** One row of a forward pass over running sequences. */
  datatype Feed = Feed(id: nat, base: nat, ver: seq<Token>)

  /** Distinct running sequences, each fed `width` tokens within its table. */
  ghost predicate FeedsOk(st: State, feeds: seq<Feed>, width: nat)
    requires Listed(st)
  {
    && (forall i, j :: 0 <= i < j < |feeds| ==> feeds[i].id != feeds[j].id)
    && (forall i :: 0 <= i < |feeds| ==> feeds[i].id in st.running && FeedFits(st.w, st.seqs[feeds[i].id], feeds[i], width))
  }

  ghost predicate FeedFits(w: World, q: Sequence, f: Feed, width: nat) {
    && |f.ver| == width && q.prompt != [] && FeedOk(q, f.base, f.ver)
    && w.bs > 0 && q.slot.Some? && q.slot.value < |w.tables|
    && f.base + width <= |w.tables[q.slot.value]| * w.bs
  }

  function PlaceOf(seqs: Table, f: Feed): Place
    requires f.id in seqs && seqs[f.id].slot.Some?
  {
    Place(seqs[f.id].slot.value, f.base)
  }

  /** What a fed row's place needs of the tables. */
  ghost predicate Placed(w: World, free: seq<nat>, q: Sequence, f: Feed) {
    && w.bs > 0 && SeatOk(q, free, |w.tables|) && NoDup(w.tables[q.slot.value])
    && Exclusive(w.tables, w.trie, q.slot.value, f.base / w.bs) && RowOk(w, Live, q)
  }

  lemma PlacedRow(w: World, free: seq<nat>, q: Sequence, f: Feed, width: nat)
    requires WorldOk(w) && SeatOk(q, free, |w.tables|) && RowOk(w, Live, q) && FeedFits(w, q, f, width)
    ensures Placed(w, free, q, f)
  {
    hide Holds, TrieHolds;
    DivMono(|q.prompt|, f.base, w.bs);
  }

  lemma FeedPlace(st: State, f: Feed, width: nat, q: Sequence)
    requires f.id in st.seqs && st.seqs[f.id] == q && FeedFits(st.w, q, f, width)
    requires StateOk(st) && f.id in st.running
    ensures Placed(st.w, st.free, q, f)
  {
    hide WaitOk, Holds, WorldOk, RowOk, FeedFits, Placed;
    RunningSeat(st, f.id);
    assert RowOk(st.w, Live, q);
    PlacedRow(st.w, st.free, q, f, width);
  }

  lemma FeedPlaces(st: State, feeds: seq<Feed>, width: nat, places: seq<Place>)
    requires StateOk(st) && FeedsOk(st, feeds, width) && |places| == |feeds|
    requires forall i :: 0 <= i < |feeds| ==> feeds[i].id in st.seqs && st.seqs[feeds[i].id].slot.Some?
    requires forall i :: 0 <= i < |feeds| ==> places[i] == PlaceOf(st.seqs, feeds[i])
    ensures PlacesOk(st.w.tables, st.w.trie, st.w.bs, places, width)
  {
    hide RowOk, WorldOk, WaitOk, Promised;
    WorldBs(st.w);
    forall i | 0 <= i < |places|
      ensures places[i].slot < |st.w.tables| && NoDup(st.w.tables[places[i].slot])
      ensures places[i].base + width <= |st.w.tables[places[i].slot]| * st.w.bs
      ensures Exclusive(st.w.tables, st.w.trie, places[i].slot, places[i].base / st.w.bs)
    {
      FeedPlace(st, feeds[i], width, st.seqs[feeds[i].id]);
    }
    forall i, j | 0 <= i < j < |places| ensures places[i].slot != places[j].slot {
      assert st.Live(feeds[i].id) && st.Live(feeds[j].id);
    }
  }

  lemma WorldBs(w: World)
    requires WorldOk(w)
    ensures w.bs > 0 && |w.store| == w.net.numLayers
  {
  }

  /** The equation a forward pass guarantees for one row. */
  ghost predicate RowRan(net: Net, was: Store, now: Store, row: Row, ver: seq<Token>, outs: seq<Hidden>)
    requires |was| == net.numLayers && row.base <= |row.cells|
  {
    (GatherRow(net, now, row.cells), outs)
    == DecodeRun(net, GatherRow(net, was, row.cells[..row.base]), Embedded(net, ver, row.base))
  }

  /** A batched pass over running sequences, as the store sees it. */
  ghost predicate PassRan(w: World, seqs: Table, store: Store, feeds: seq<Feed>, width: nat, rows: seq<Row>,
                          outs: seq<seq<Hidden>>) {
    && |w.store| == |store| == w.net.numLayers && w.bs > 0 && |rows| == |feeds| == |outs|
    && (forall i :: 0 <= i < |feeds| ==> feeds[i].id in seqs && FeedFits(w, seqs[feeds[i].id], feeds[i], width))
    && (forall i :: 0 <= i < |feeds| ==> rows[i] == RowOf(w.tables, w.bs, PlaceOf(seqs, feeds[i]), width))
    && (forall i :: 0 <= i < |feeds| ==> RowRan(w.net, w.store, store, rows[i], feeds[i].ver, outs[i]))
    && (forall l :: 0 <= l < |w.store| ==> SameElsewhere(w.net, rows, w.store[l], store[l]))
  }

  /** One row fed by the pass. */
  lemma FedOne(w: World, q: Sequence, f: Feed, width: nat, store: Store, row: Row, outs: seq<Hidden>)
    requires RowOk(w, Live, q) && FeedFits(w, q, f, width) && |w.store| == |store| == w.net.numLayers
    requires row == RowOf(w.tables, w.bs, Place(q.slot.value, f.base), width)
    requires RowRan(w.net, w.store, store, row, f.ver, outs)
    ensures RowOk(w.(store := store), Live, q)
    ensures RowResult(w.net, store, w.tables[q.slot.value], w.bs, q, f.base, f.ver, outs)
  {
    hide RowOk, RowResult, DecodeRun, GatherRow, Embedded;
    RowAfter(w, store, q, f.base, f.ver, outs);
  }

  lemma FedRow(st: State, feeds: seq<Feed>, width: nat, store: Store, rows: seq<Row>, outs: seq<seq<Hidden>>, i: nat,
               q: Sequence)
    requires i < |feeds| == |outs| && feeds[i].id in st.seqs && st.seqs[feeds[i].id] == q
    requires q.slot.Some? && q.slot.value < |st.w.tables| && st.w.bs > 0 && q.prompt != [] && q.fold <= |q.outputs|
    requires StateOk(st) && FeedsOk(st, feeds, width) && PassRan(st.w, st.seqs, store, feeds, width, rows, outs)
    ensures RowOk(st.w, Live, q) && RowOk(st.w.(store := store), Live, q)
    ensures RowResult(st.w.net, store, st.w.tables[q.slot.value], st.w.bs, q, feeds[i].base, feeds[i].ver, outs[i])
  {
    hide WorldOk, WaitOk, SameElsewhere, Seated, RowOk, RowResult, RowRan, FeedFits;
    assert RowOk(st.w, Live, q);
    FedOne(st.w, q, feeds[i], width, store, rows[i], outs[i]);
  }

  /** Everything outside the blocks the fed rows own is as it was. */
  lemma PassFrame(st: State, feeds: seq<Feed>, width: nat, store: Store, rows: seq<Row>, outs: seq<seq<Hidden>>,
                  slots: seq<nat>)
    requires StateOk(st) && FeedsOk(st, feeds, width) && PassRan(st.w, st.seqs, store, feeds, width, rows, outs)
    requires slots == seq(|feeds|, i requires 0 <= i < |feeds| && feeds[i].id in st.seqs && st.seqs[feeds[i].id].slot.Some?
                                     => st.seqs[feeds[i].id].slot.value)
    ensures WorldOk(st.w.(store := store))
    ensures forall phase, q :: RowOk(st.w, phase, q) && q.slot.value !in slots ==> RowOk(st.w.(store := store), phase, q)
  {
    hide RowOk, WorldOk, WaitOk, Promised, Seated;
    var places := seq(|feeds|, i requires 0 <= i < |feeds| && feeds[i].id in st.seqs && st.seqs[feeds[i].id].slot.Some?
                               => PlaceOf(st.seqs, feeds[i]));
    FeedPlaces(st, feeds, width, places);
    forall i | 0 <= i < |places| ensures places[i].slot in slots {
      assert slots[i] == places[i].slot;
    }
    WrittenPrivate(st.w.tables, st.w.trie, st.w.bs, places, slots);
    WrittenWithin(st.w.net, st.w.tables, st.w.bs, places, width, rows, st.w.store, store);
    WrittenWorld(st.w, store, slots, WrittenBlocks(st.w.tables, st.w.bs, places));
  }

  lemma ForwardState(st: State, feeds: seq<Feed>, width: nat, store: Store, rows: seq<Row>, outs: seq<seq<Hidden>>)
    requires StateOk(st) && st.batch == [] && FeedsOk(st, feeds, width)
    requires PassRan(st.w, st.seqs, store, feeds, width, rows, outs)
    ensures StateOk(st.(w := st.w.(store := store)))
  {
    hide RowOk, WorldOk, WaitOk, RowRan, SameElsewhere, RowResult, FeedFits;
    var slots := seq(|feeds|, i requires 0 <= i < |feeds| && feeds[i].id in st.seqs && st.seqs[feeds[i].id].slot.Some?
                              => st.seqs[feeds[i].id].slot.value);
    PassFrame(st, feeds, width, store, rows, outs, slots);
    forall id | id in st.running ensures RowOk(st.w.(store := store), Live, st.seqs[id]) {
      RunningSeat(st, id);
      assert RowOk(st.w, Live, st.seqs[id]);
      if st.seqs[id].slot.value in slots {
        var i :| 0 <= i < |slots| && slots[i] == st.seqs[id].slot.value;
        RunningSeat(st, feeds[i].id);
        assert st.Live(id) && st.Live(feeds[i].id);
        FedRow(st, feeds, width, store, rows, outs, i, st.seqs[feeds[i].id]);
      }
    }
    NewWorld(st, st.w.(store := store));
  }

  /** What the pass answers for one fed row, in the world it leaves behind. */
  ghost predicate Answered(w: World, q: Sequence, f: Feed, outs: seq<Hidden>) {
    && RowOk(w, Live, q) && q.prompt != [] && q.fold <= |q.outputs| && FeedOk(q, f.base, f.ver)
    && q.slot.Some? && q.slot.value < |w.tables| && |w.store| == w.net.numLayers
    && RowResult(w.net, w.store, w.tables[q.slot.value], w.bs, q, f.base, f.ver, outs)
  }

  lemma AnsweredRow(st: State, feeds: seq<Feed>, width: nat, store: Store, rows: seq<Row>, outs: seq<seq<Hidden>>, i: nat)
    requires i < |feeds| == |outs| && feeds[i].id in st.seqs
    requires StateOk(st) && FeedsOk(st, feeds, width) && PassRan(st.w, st.seqs, store, feeds, width, rows, outs)
    ensures Answered(st.w.(store := store), st.seqs[feeds[i].id], feeds[i], outs[i])
  {
    hide WorldOk, WaitOk, SameElsewhere, Seated, RowOk, RowResult, RowRan, FeedOk;
    RunningSeat(st, feeds[i].id);
    FedRow(st, feeds, width, store, rows, outs, i, st.seqs[feeds[i].id]);
  }

  /** A running sequence that has only gained tokens; a speculative step leaves no stale carry. */
  ghost predicate Gained(net: Net, q: Sequence, r: Sequence, kind: Kind) {
    && Worked(net, q, r, kind) && Evolves(q, r) && |q.outputs| < |r.outputs|
    && r.status == q.status && r.slot == q.slot && (kind == Speculating ==> !r.stale)
  }

  /** The first `k` of `ids` gained tokens since `was`; nothing else changed. */
  ghost predicate Stepped(net: Net, was: Table, now: Table, ids: seq<nat>, k: nat, kind: Kind) {
    && now.Keys == was.Keys && k <= |ids|
    && (forall i :: 0 <= i < |ids| ==> ids[i] in was)
    && (forall i :: 0 <= i < k ==> ids[i] in now && Gained(net, was[ids[i]], now[ids[i]], kind))
    && (forall i :: k <= i < |ids| ==> ids[i] in now && now[ids[i]] == was[ids[i]])
    && (forall id :: id in was && id !in ids ==> now[id] == was[id])
  }

  /** Every listed sequence carries a token. */
  ghost predicate AllCarry(seqs: Table, ids: seq<nat>) {
    forall id :: id in ids ==> id in seqs && seqs[id].carry.Some?
  }

  lemma SteppedNone(net: Net, seqs: Table, ids: seq<nat>, kind: Kind)
    requires forall i :: 0 <= i < |ids| ==> ids[i] in seqs
    ensures Stepped(net, seqs, seqs, ids, 0, kind)
  {
    hide Gained;
  }

  lemma SteppedRest(net: Net, was: Table, now: Table, ids: seq<nat>, k: nat, kind: Kind)
    requires Stepped(net, was, now, ids, k, kind) && k < |ids|
    ensures ids[k] in was && ids[k] in now && now[ids[k]] == was[ids[k]] && ids[k] in ids
  {
    hide Gained;
  }

  lemma SteppedNext(net: Net, first: Table, was: Table, now: Table, ids: seq<nat>, k: nat, kind: Kind)
    requires Stepped(net, first, was, ids, k, kind) && k < |ids| && NoDup(ids)
    requires ids[k] in now && now == was[ids[k] := now[ids[k]]] && Gained(net, was[ids[k]], now[ids[k]], kind)
    ensures Stepped(net, first, now, ids, k + 1, kind)
  {
    hide Gained;
    assert ids[k] in ids;
  }

  lemma SteppedEvolves(net: Net, was: Table, now: Table, ids: seq<nat>, k: nat, kind: Kind)
    requires Stepped(net, was, now, ids, k, kind)
    ensures AllEvolve(was, now) && AllWorked(net, was, now, kind)
  {
    hide Worked;
    forall id | id in was ensures Evolves(was[id], now[id]) && Worked(net, was[id], now[id], kind) {
      if id in ids {
        var i :| 0 <= i < |ids| && ids[i] == id;
        assert i < k ==> Gained(net, was[ids[i]], now[ids[i]], kind);
      }
      WorkedSame(net, was[id], kind);
    }
  }

  /** The row a plain decode step or a bootstrap feeds. */
  function PlainFeed(id: nat, q: Sequence): Feed
    requires q.prompt != []
  {
    Feed(id, q.length, [q.LastToken()])
  }

  /** The row a verify pass feeds: the carried token, the drafts, and zeros up to the width. */
  function VerifyFeed(id: nat, q: Sequence, draft: seq<Token>, k: nat): Feed
    requires q.carry.Some? && |draft| <= k
  {
    Feed(id, q.length + 1, [q.carry.value] + draft + seq(k - |draft|, _ => 0))
  }

  /** A plain step's row, and what it becomes. */
  lemma PlainRow(w: World, q: Sequence, f: Feed, outs: seq<Hidden>)
    requires Answered(w, q, f, outs) && f.base == q.length && |f.ver| == 1
    ensures |outs| == 1
    ensures !q.IsFinished(w.eos) ==> RowOk(w, Live, DecodeStep(q, w.net.pick(outs[0])))
    ensures q.carry.None? ==> RowOk(w, Live, q.(carry := Some(w.net.pick(outs[0]))))
    ensures !q.spoiled ==> w.net.pick(outs[0]) == Next(w.net, q.Fed())
  {
    hide FinishReason, Holds, Exclusive, OnTrack;
    if !q.IsFinished(w.eos) { DecodeRow(w, q, w.store, w.net.pick(outs[0])); }
    if q.carry.None? { BootstrapRow(w, q, w.store, w.net.pick(outs[0])); }
  }

  lemma VerifiedRow(w: World, q: Sequence, f: Feed, outs: seq<Hidden>, truth: seq<Token>, actual: nat,
                    r: Sequence, n: nat, m: nat)
    requires Answered(w, q, f, outs) && f.base == q.length + 1 && !q.IsFinished(w.eos)
    requires |truth| == |f.ver| == |outs| && (forall t :: 0 <= t < |truth| ==> truth[t] == w.net.pick(outs[t]))
    requires Accepted(q, w.eos, f.ver, truth, actual, r, n, m)
    ensures RowOk(w, Live, r) && Gained(w.net, q, r, Speculating)
  {
    hide FinishReason, Holds, Exclusive, OnTrack, AcceptCount, EmitCount, GreedyTail, Excused, Accepted, Gained;
    assert q.carry == Some(f.ver[0]);
    VerifyRow(w, q, w.store, f.ver, truth, actual, r, n, m);
    AcceptedGains(w.net, q, w.eos, f.ver, truth, actual, r, n, m);
  }

  lemma AcceptedGains(net: Net, q: Sequence, eos: Option<Token>, ver: seq<Token>, truth: seq<Token>, actual: nat,
                      r: Sequence, n: nat, m: nat)
    requires q.status == Running && q.prompt != [] && q.fold <= |q.outputs|
    requires Accepted(q, eos, ver, truth, actual, r, n, m)
    requires !r.spoiled ==> r.fold <= |r.outputs| && GreedyTail(net, r.Fed(), |q.Fed()|)
    ensures Gained(net, q, r, Speculating)
  {
    hide FinishReason, AcceptCount, GreedyTail;
    AcceptedBounds(q, eos, ver, truth, actual, r, n, m);
  }

  /** One greedy token after a context. */
  lemma GreedyOne(net: Net, ctx: seq<Token>, tok: Token)
    requires ctx != [] && tok == Next(net, ctx)
    ensures GreedyTail(net, ctx + [tok], |ctx|)
  {
    assert (ctx + [tok])[..|ctx|] == ctx;
  }

  /** A plain step's row has gained one token. */
  lemma DecodedGains(net: Net, q: Sequence, tok: Token)
    requires q.status == Running && q.prompt != [] && q.fold <= |q.outputs| && (!q.spoiled ==> tok == Next(net, q.Fed()))
    ensures Gained(net, q, DecodeStep(q, tok), Decoding)
  {
    hide GreedyTail;
    FedGrows(q, DecodeStep(q, tok), [tok]);
    if !q.spoiled { GreedyOne(net, q.Fed(), tok); }
  }

  /** So has a row that committed its carry. */
  lemma NoDraftGains(net: Net, eos: Option<Token>, q: Sequence)
    requires Pure(net, eos, Live, q) && q.carry.Some?
    ensures Gained(net, q, NoDraftStep(q), Speculating)
  {
    hide GreedyTail, OnTrack;
    FedGrows(q, NoDraftStep(q), [q.carry.value]);
    if !q.spoiled && !q.stale { GreedyOne(net, q.Fed(), q.carry.value); }
  }

  /** A prefilled sequence. */
  lemma FilledWorks(net: Net, q: Sequence)
    requires q.prompt != [] && q.fold == |q.outputs|
    ensures Worked(net, q, Prefilled(q, Next(net, q.prompt)), Prefilling)
  {
    hide GreedyTail;
    FedGrows(q, Prefilled(q, Next(net, q.prompt)), [Next(net, q.prompt)]);
    assert q.Fed() == q.prompt;
    GreedyOne(net, q.prompt, Next(net, q.prompt));
  }

  // ---- what is left to do --------------------------------------------------------

  /** Tokens a sequence may still generate; at least one until it is finished. */
  function Left(q: Sequence): nat {
    if q.status == Finished then 0 else if |q.outputs| < q.maxTokens then q.maxTokens - |q.outputs| else 1
  }

  /** What all sequences with ids below `n` may still generate. */
  function Work(seqs: Table, n: nat): nat {
    if n == 0 then 0 else Work(seqs, n - 1) + if n - 1 in seqs then Left(seqs[n - 1]) else 0
  }

  lemma {:induction false} WorkFalls(was: Table, now: Table, n: nat)
    requires AllEvolve(was, now)
    ensures Work(now, n) <= Work(was, n)
  {
    if n > 0 { WorkFalls(was, now, n - 1); }
  }

  lemma {:induction false} WorkDrops(was: Table, now: Table, n: nat, id: nat)
    requires AllEvolve(was, now) && id < n && id in was && Left(now[id]) < Left(was[id])
    ensures Work(now, n) < Work(was, n)
  {
    WorkFalls(was, now, n - 1);
    if id < n - 1 { WorkDrops(was, now, n - 1, id); }
  }

  /** A sequence that gained a token in a step, and is marked finished if it is, has less left. */
  lemma LeftDrops(a: Sequence, b: Sequence, c: Sequence, d: Sequence, eos: Option<Token>)
    requires Evolves(a, b) && Evolves(b, c) && Evolves(c, d) && b.status == Running && |b.outputs| < |c.outputs|
    requires d.status == Finished || !d.IsFinished(eos)
    ensures Left(d) < Left(a)
  {
  }

  /** A cancelled running sequence leaves the table as well as the list. */
  lemma CancelState(st: State, i: nat)
    requires StateOk(st) && i < |st.running| && st.running[i] in st.seqs
    ensures StateOk(Vacating(st, i, st.seqs[st.running[i]]).(seqs := st.seqs - {st.running[i]}))
  {
    hide RowOk, WorldOk, FinishReason, Seated, Promised, Without, FinOk;
    var id := st.running[i];
    assert id in st.running;
    RunningSeat(st, id);
    var gone := st.seqs[id].(status := Finished, maxTokens := 0, exact := false, misfed := true);
    WithdrawnOver(st.w.net, st.w.eos, st.seqs[id]);
    RetireState(st, i, gone);
    var mid := Vacating(st, i, gone);
    NoDupWithout(st.running, i);
    assert !mid.Live(id) && id !in mid.waiting by { LiveNotListed(st, id, i); }
    DropState(mid, id);
    assert st.seqs[id := gone] - {id} == st.seqs - {id};
  }

  /** What a cancelled sequence leaves behind for the moment before its record is dropped. */
  lemma WithdrawnOver(net: Net, eos: Option<Token>, q: Sequence)
    requires Excused(q)
    ensures FinOk(net, eos, q.(status := Finished, maxTokens := 0, exact := false, misfed := true))
  {
  }

  lemma LiveNotListed(st: State, id: nat, i: nat)
    requires StateOk(st) && i < |st.running| && st.running[i] == id
    ensures id !in st.waiting && id !in st.batch && id !in Without(st.running, i)
  {
    hide RowOk, WorldOk;
    assert id in st.running;
    NoDupWithout(st.running, i);
    if id in st.waiting { LiveNotWaiting(st, id); }
  }
}
