/** The arithmetic of the block pool: what seats and the prefix cache can hold together, and exactly
    how large a pool must be so that it never runs dry while someone still needs a block. */
module Pool {
  import opened Options
  import opened Lists
  import opened Network
  import opened PrefixTrie
  import opened Blocks
  import opened PagedCache

  /** What an engine is provisioned for: requests that fit `span` positions, tables of at most
      `cap` blocks, at most `seats` live sequences, and at most `budget` blocks in the trie. */
  datatype Bounds = Bounds(span: nat, cap: nat, seats: nat, budget: nat)

  /** The pool holds the longest tables of all seats beside the whole prefix budget, and one
      block more if a slot can stay free while every seat is taken. */
  predicate Provisioned(b: Bounds, numBlocks: nat, numSlots: nat) {
    && b.cap > 0 && b.budget + b.seats * b.cap <= numBlocks
    && (numSlots > b.seats ==> b.budget + b.seats * b.cap < numBlocks)
  }

  ghost predicate WithinCap(tables: seq<seq<nat>>, cap: nat) {
    forall s :: 0 <= s < |tables| ==> |tables[s]| <= cap
  }

  // ---- counting blocks -----------------------------------------------------------

  /** All blocks some table names. */
  function Union(tables: seq<seq<nat>>): set<nat> {
    if tables == [] then {} else Union(Init(tables)) + Elements(Last(tables))
  }

  lemma {:induction false} UnionHas(tables: seq<seq<nat>>, i: nat, b: nat)
    requires i < |tables| && b in tables[i]
    ensures b in Union(tables)
  {
    if i < |tables| - 1 { UnionHas(Init(tables), i, b); }
  }

  lemma UnionLast(tables: seq<seq<nat>>)
    requires tables != []
    ensures |Union(tables)| <= |Union(Init(tables))| + |Last(tables)|
  {
    FewElements(Last(tables));
    CardOfUnion(Union(Init(tables)), Elements(Last(tables)));
  }

  lemma TimesStep(n: nat, cap: nat)
    requires n > 0
    ensures n * cap == (n - 1) * cap + cap
  {
  }

  /** Tables of at most `cap` blocks name at most `cap` each, and fewer if one is short. */
  lemma {:induction false} UnionBound(tables: seq<seq<nat>>, cap: nat, short: nat)
    requires WithinCap(tables, cap)
    ensures |Union(tables)| <= |tables| * cap
    ensures short < |tables| && |tables[short]| < cap ==> |Union(tables)| < |tables| * cap
  {
    if tables == [] {
      assert Union(tables) == {};
    } else {
      hide Union;
      UnionBound(Init(tables), cap, short);
      UnionLast(tables);
      TimesStep(|tables|, cap);
    }
  }

  lemma {:induction false} TableRefsFound(tables: seq<seq<nat>>, b: nat) returns (s: nat)
    requires TableRefs(tables, b) > 0
    ensures s < |tables| && b in tables[s]
  {
    if b in Last(tables) {
      s := |tables| - 1;
    } else {
      OccursIn(Last(tables), b);
      s := TableRefsFound(Init(tables), b);
    }
  }

  /** Nothing is free: every block is in one of the `lists`, which cover the tables, or pinned. */
  lemma Covered(rc: map<nat, nat>, numBlocks: nat, tables: seq<seq<nat>>, trie: Node, pins: map<nat, nat>,
                lists: seq<seq<nat>>)
    requires Balanced(rc, [], numBlocks, tables, trie)
    requires forall b: nat :: Counted(b, pins, Refs(trie, b))
    requires forall s :: 0 <= s < |tables| && tables[s] != [] ==> tables[s] in lists
    ensures numBlocks <= |Union(lists)| + |pins|
  {
    var held := Union(lists);
    forall b: nat | b < numBlocks ensures b in held + pins.Keys {
      assert Accounted(b, rc, [], numBlocks, Owners(tables, trie, b));
      assert Counted(b, pins, Refs(trie, b));
      if b !in pins {
        var s := TableRefsFound(tables, b);
        var i :| 0 <= i < |lists| && lists[i] == tables[s];
        UnionHas(lists, i, b);
      }
    }
    AllKeys(held + pins.Keys, numBlocks);
    CardOfUnion(held, pins.Keys);
    assert |pins| == |pins.Keys|;
  }

  // ---- exactly when the pool is large enough --------------------------------------

  /** A pool without a free block: the first `taken` slots have tables, the others are free, and
      tables and trie stay within the bounds. */
  ghost predicate DryWithin(b: Bounds, numBlocks: nat, bs: nat, tables: seq<seq<nat>>, taken: nat, trie: Node,
                            rc: map<nat, nat>, pins: map<nat, nat>) {
    && taken <= b.seats && taken <= |tables| && |pins| <= b.budget && WithinCap(tables, b.cap)
    && (forall s :: 0 <= s < |tables| ==> NoDup(tables[s])) && (forall s :: taken <= s < |tables| ==> tables[s] == [])
    && Balanced(rc, [], numBlocks, tables, trie) && (forall b: nat :: Counted(b, pins, Refs(trie, b)))
    && Distinct(trie) && EntriesOk(trie, bs, 0)
  }

  /** Such a pool is too small for someone: a slot is free, or a live table has room to grow. */
  ghost predicate Starves(b: Bounds, tables: seq<seq<nat>>, taken: nat)
    requires taken <= |tables|
  {
    taken < |tables| || exists s :: 0 <= s < taken && |tables[s]| < b.cap
  }

  /** A provisioned pool is dry only with every seat taken, no slot free, and every table full. */
  lemma DryStarvesNobody(b: Bounds, numBlocks: nat, bs: nat, tables: seq<seq<nat>>, taken: nat, trie: Node,
                         rc: map<nat, nat>, pins: map<nat, nat>)
    requires Provisioned(b, numBlocks, |tables|) && DryWithin(b, numBlocks, bs, tables, taken, trie, rc, pins)
    requires b.seats <= |tables|
    ensures !Starves(b, tables, taken)
  {
    hide Balanced, Counted, Union, Distinct, EntriesOk;
    var lists := tables[..taken];
    forall s | 0 <= s < |tables| && tables[s] != [] ensures tables[s] in lists { assert lists[s] == tables[s]; }
    Covered(rc, numBlocks, tables, trie, pins, lists);
    UnionBound(lists, b.cap, taken);
    SeatsBound(taken, b.seats, b.cap);
    forall s | 0 <= s < taken ensures |tables[s]| >= b.cap {
      UnionBound(lists, b.cap, s);
    }
  }

  lemma SeatsBound(taken: nat, seats: nat, cap: nat)
    requires taken <= seats
    ensures taken * cap <= seats * cap
    ensures taken < seats ==> taken * cap + cap <= seats * cap
  {
    MulMono(taken, seats, cap);
    if taken < seats {
      MulMono(taken + 1, seats, cap);
      TimesStep(taken + 1, cap);
    }
  }

  /** Deal out every free block, filling one seat after the other: nothing is lost, no table gets
      more than `cap`, and if `slack` blocks are missing one table stays short. */
  lemma {:induction false} Deal(rc: map<nat, nat>, free: seq<nat>, numBlocks: nat, tables: seq<seq<nat>>, trie: Node,
                                s: nat, seats: nat, cap: nat, slack: nat)
    returns (rc': map<nat, nat>, tables': seq<seq<nat>>)
    requires Balanced(rc, free, numBlocks, tables, trie) && NoDup(free) && cap > 0 && s <= seats <= |tables|
    requires Dealt(tables, s, seats, cap) && (s == seats ==> slack == 0 && free == [])
    requires s < seats ==> (seats - s) * cap == |free| + |tables[s]| + slack
    ensures Balanced(rc', [], numBlocks, tables', trie) && |tables'| == |tables| && WithinCap(tables', cap)
    ensures forall r :: 0 <= r < |tables| ==> NoDup(tables'[r]) && (r >= seats ==> tables'[r] == [])
    ensures slack > 0 ==> exists r :: 0 <= r < seats && |tables'[r]| < cap
    decreases |free|
  {
    hide Balanced;
    if free == [] {
      rc', tables' := rc, tables;
      assert slack > 0 ==> |tables'[s]| < cap;
    } else {
      TakeBlock(rc, free, numBlocks, tables, trie, s);
      var now := tables[s := tables[s] + [Last(free)]];
      TimesStep(seats - s, cap);
      assert |now[s]| == cap && s + 1 == seats ==> |Init(free)| == 0 && slack == 0;
      rc', tables' := Deal(rc[Last(free) := 1], Init(free), numBlocks, now, trie,
                           if |now[s]| == cap then s + 1 else s, seats, cap, slack);
    }
  }

  /** Seats before `s` are full, `s` has room, and those after it have nothing. */
  ghost predicate Dealt(tables: seq<seq<nat>>, s: nat, seats: nat, cap: nat) {
    && s <= seats <= |tables|
    && (forall r :: 0 <= r < |tables| ==> NoDup(tables[r]))
    && (forall r :: 0 <= r < s ==> |tables[r]| == cap)
    && (s < seats ==> |tables[s]| < cap) && (forall r :: s < r < |tables| ==> tables[r] == [])
    && (s == seats && s < |tables| ==> tables[s] == [])
  }

  /** A trie whose only entry holds the first `n` blocks. */
  function Pinning(n: nat, bs: nat): Node
    requires bs > 0
  {
    if n == 0 then EMPTY
    else
      var path := seq(n * bs, _ => 0);
      EnsureReplaced(EMPTY, path);
      Fill(Ensure(EMPTY, path), path, Some(Entry(Upto(n), n * bs, 0)))
  }

  lemma PinningCounts(n: nat, bs: nat, b: nat)
    requires bs > 0
    ensures Refs(Pinning(n, bs), b) == if b < n then 1 else 0
  {
    EmptyTrie();
    if n > 0 {
      var path, blocks := seq(n * bs, _ => 0), Upto(n);
      var e := Some(Entry(blocks, n * bs, 0));
      EnsureReplaced(EMPTY, path);
      FillReplaced(Ensure(EMPTY, path), path, e);
      var mid, now := Ensure(EMPTY, path), Pinning(n, bs);
      assert Refs(mid, b) + EntryRefs(At(EMPTY, path), b) == Refs(EMPTY, b) + EntryRefs(At(EMPTY, path), b);
      assert Refs(now, b) + EntryRefs(At(mid, path), b) == Refs(mid, b) + EntryRefs(e, b);
      OccursIn(blocks, b);
      if b < n { assert blocks[b] == b; }
    }
  }

  lemma PinningShape(n: nat, bs: nat)
    requires bs > 0
    ensures Distinct(Pinning(n, bs)) && EntriesOk(Pinning(n, bs), bs, 0)
  {
    EmptyTrie();
    if n > 0 {
      var path := seq(n * bs, _ => 0);
      MulMono(1, n, bs);
      EnsureReplaced(EMPTY, path);
      FillReplaced(Ensure(EMPTY, path), path, Some(Entry(Upto(n), n * bs, 0)));
    }
  }

  /** The pool in which the trie pins the first `n` blocks and no slot is taken. */
  lemma PinnedPool(n: nat, numBlocks: nat, numSlots: nat, bs: nat)
    returns (rc: map<nat, nat>, free: seq<nat>, tables: seq<seq<nat>>)
    requires bs > 0 && n <= numBlocks
    ensures Balanced(rc, free, numBlocks, tables, Pinning(n, bs)) && NoDup(free) && |free| == numBlocks - n
    ensures |tables| == numSlots && forall s :: 0 <= s < numSlots ==> tables[s] == []
    ensures |rc| == n && forall b: nat :: Counted(b, rc, Refs(Pinning(n, bs), b))
  {
    rc := map b | b in Upto(n) :: 1;
    free := seq(numBlocks - n, i requires 0 <= i < numBlocks - n => n + i);
    tables := seq(numSlots, s => []);
    forall b: nat
      ensures Accounted(b, rc, free, numBlocks, Owners(tables, Pinning(n, bs), b))
      ensures Counted(b, rc, Refs(Pinning(n, bs), b))
    {
      TableRefsZero(tables, b);
      PinningCounts(n, bs, b);
      if b < n { assert Upto(n)[b] in Upto(n); }
      if n <= b < numBlocks { assert free[b - n] == b; }
    }
    NoDupCard(Upto(n));
    assert rc.Keys == Elements(Upto(n)) && |rc| == |rc.Keys|;
  }

  /** Otherwise there is a dry pool within the bounds that starves someone: the trie pins its whole
      budget and the rest is dealt out to the seats. */
  lemma DryStarvesSomebody(b: Bounds, numBlocks: nat, numSlots: nat, bs: nat)
    returns (tables: seq<seq<nat>>, trie: Node, rc: map<nat, nat>, pins: map<nat, nat>)
    requires b.cap > 0 && 0 < b.seats <= numSlots && b.budget <= numBlocks && bs > 0
    requires !Provisioned(b, numBlocks, numSlots)
    ensures |tables| == numSlots && DryWithin(b, numBlocks, bs, tables, b.seats, trie, rc, pins)
    ensures Starves(b, tables, b.seats)
  {
    hide Balanced, Counted, Pinning;
    trie := Pinning(b.budget, bs);
    PinningShape(b.budget, bs);
    var free, empty;
    pins, free, empty := PinnedPool(b.budget, numBlocks, numSlots, bs);
    rc, tables := Deal(pins, free, numBlocks, empty, trie, 0, b.seats, b.cap, b.seats * b.cap - |free|);
  }

  /** The condition is exact: a pool is provisioned if and only if no dry pool within the bounds
      starves anyone. */
  lemma ProvisionedExactly(b: Bounds, numBlocks: nat, numSlots: nat, bs: nat)
    requires b.cap > 0 && 0 < b.seats <= numSlots && b.budget <= numBlocks && bs > 0
    ensures Provisioned(b, numBlocks, numSlots) <==>
      forall tables: seq<seq<nat>>, taken: nat, trie: Node, rc: map<nat, nat>, pins: map<nat, nat> ::
        |tables| == numSlots && DryWithin(b, numBlocks, bs, tables, taken, trie, rc, pins) ==> !Starves(b, tables, taken)
  {
    hide DryWithin, Starves;
    if Provisioned(b, numBlocks, numSlots) {
      forall tables: seq<seq<nat>>, taken: nat, trie: Node, rc: map<nat, nat>, pins: map<nat, nat>
        | |tables| == numSlots && DryWithin(b, numBlocks, bs, tables, taken, trie, rc, pins)
        ensures taken <= |tables| && !Starves(b, tables, taken)
      {
        DryTaken(b, numBlocks, bs, tables, taken, trie, rc, pins);
        DryStarvesNobody(b, numBlocks, bs, tables, taken, trie, rc, pins);
      }
    } else {
      var tables, trie, rc, pins := DryStarvesSomebody(b, numBlocks, numSlots, bs);
      assert DryWithin(b, numBlocks, bs, tables, b.seats, trie, rc, pins);
    }
  }

  lemma DryTaken(b: Bounds, numBlocks: nat, bs: nat, tables: seq<seq<nat>>, taken: nat, trie: Node,
                 rc: map<nat, nat>, pins: map<nat, nat>)
    requires DryWithin(b, numBlocks, bs, tables, taken, trie, rc, pins)
    ensures taken <= |tables|
  {
    hide Balanced, Counted;
  }

  /** The pool a cache makes by default: as many blocks per slot as the window needs, and half of
      them for the prefix cache. A speculative step needs `cap` blocks, its overshoot included. The
      pool is provisioned exactly if the spare slots outweigh what the seats may hold beyond half. */
  lemma DefaultPool(window: nat, specK: nat, bs: nat, seats: nat, spare: nat)
    requires window > 0 && bs > 0 && seats > 0
    ensures
      var per, cap := Needed(window, bs), Needed(window + specK, bs);
      var numBlocks := (seats + spare) * per;
      var budget := if numBlocks / 2 > 1 then numBlocks / 2 else 1;
      && 0 < per <= cap && budget <= numBlocks
      && (Provisioned(Bounds(window, cap, seats, budget), numBlocks, seats + spare)
          <==> seats * (2 * cap - per) < spare * per)
  {
    var per, cap := Needed(window, bs), Needed(window + specK, bs);
    NeededMono(window, window + specK, bs);
    HalfPool(per, cap, seats, spare);
  }

  lemma HalfPool(per: nat, cap: nat, seats: nat, spare: nat)
    requires 0 < per <= cap && seats > 0
    ensures
      var numBlocks := (seats + spare) * per;
      var budget := if numBlocks / 2 > 1 then numBlocks / 2 else 1;
      && budget <= numBlocks
      && ((budget + seats * cap <= numBlocks && (spare > 0 ==> budget + seats * cap < numBlocks))
          <==> seats * (2 * cap - per) < spare * per)
  {
    var mine, extra, over := seats * per, spare * per, seats * (cap - per);
    assert (seats + spare) * per == mine + extra;
    MulMono(1, seats, per);
    assert seats * cap == mine + over;
    assert seats * (2 * cap - per) == mine + 2 * over;
    if spare > 0 { MulMono(1, spare, per); }
  }

  lemma NeededMono(a: nat, b: nat, bs: nat)
    requires bs > 0 && a <= b
    ensures Needed(a, bs) <= Needed(b, bs)
  {
    DivMono(a + bs - 1, b + bs - 1, bs);
  }
}
