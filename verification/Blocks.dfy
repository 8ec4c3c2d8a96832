/** Block arithmetic and reference counting over block tables. */
module Blocks {
  import opened Lists
  import opened Network
  import opened PrefixTrie

  lemma DivMono(a: nat, b: nat, d: nat)
    requires d > 0 && a <= b
    ensures a / d <= b / d
  {
    if a / d > b / d {
      assert (a / d) * d >= (b / d + 1) * d by { MulMono(b / d + 1, a / d, d); }
    }
  }

  lemma MulMono(a: int, b: int, d: nat)
    requires a <= b
    ensures a * d <= b * d
  {
  }

  lemma DivBound(p: nat, n: nat, d: nat)
    requires d > 0 && p < n * d
    ensures p / d < n
  {
    if p / d >= n { MulMono(n, p / d, d); }
  }

  /** The quotient is the only whole number of blocks below `a` within one block of it. */
  lemma DivOf(q: nat, r: nat, d: nat)
    requires d > 0 && r < d
    ensures (q * d + r) / d == q && (q * d + r) % d == r
  {
    var x := q * d + r;
    if x / d < q { MulMono(x / d + 1, q, d); }
    if x / d > q { MulMono(q + 1, x / d, d); }
  }

  /** How many blocks hold `n` tokens, rounded up. */
  function Needed(n: nat, bs: nat): (r: nat)
    requires bs > 0
    ensures n <= r * bs
    ensures r > 0 ==> (r - 1) * bs < n
  {
    (n + bs - 1) / bs
  }

  // ---- occurrences ---------------------------------------------------------------

  lemma {:induction false} OccursConcat(a: seq<nat>, c: seq<nat>, b: nat)
    ensures Occurs(a + c, b) == Occurs(a, b) + Occurs(c, b)
  {
    if c == [] {
      assert a + c == a;
    } else {
      OccursConcat(a, Init(c), b);
      assert Init(a + c) == a + Init(c) && Last(a + c) == Last(c);
    }
  }

  lemma OccursFirst(s: seq<nat>, b: nat)
    requires s != []
    ensures Occurs(s, b) == (if s[0] == b then 1 else 0) + Occurs(s[1..], b)
  {
    assert s == [s[0]] + s[1..];
    OccursConcat([s[0]], s[1..], b);
    assert Init([s[0]]) == [];
  }

  lemma {:induction false} OccursIn(s: seq<nat>, b: nat)
    ensures Occurs(s, b) > 0 <==> b in s
    ensures NoDup(s) ==> Occurs(s, b) <= 1
  {
    if s != [] {
      OccursIn(Init(s), b);
      assert s == Init(s) + [Last(s)];
      if NoDup(s) && Last(s) == b {
        assert b !in Init(s);
      }
    }
  }

  /** How often the slot tables name block `b`. */
  function TableRefs(tables: seq<seq<nat>>, b: nat): nat {
    if tables == [] then 0 else TableRefs(Init(tables), b) + Occurs(Last(tables), b)
  }

  lemma {:induction false} TableRefsUpdate(tables: seq<seq<nat>>, s: nat, table: seq<nat>, b: nat)
    requires s < |tables|
    ensures TableRefs(tables[s := table], b) + Occurs(tables[s], b) == TableRefs(tables, b) + Occurs(table, b)
  {
    if s == |tables| - 1 {
      assert Init(tables[s := table]) == Init(tables);
    } else {
      TableRefsUpdate(Init(tables), s, table, b);
      assert Init(tables[s := table]) == Init(tables)[s := table];
    }
  }

  lemma {:induction false} TableRefsAtLeast(tables: seq<seq<nat>>, s: nat, b: nat)
    requires s < |tables|
    ensures Occurs(tables[s], b) <= TableRefs(tables, b)
  {
    if s < |tables| - 1 { TableRefsAtLeast(Init(tables), s, b); }
  }

  lemma TableRefsTwo(tables: seq<seq<nat>>, s: nat, t: nat, b: nat)
    requires s < |tables| && t < |tables| && s != t
    ensures Occurs(tables[s], b) + Occurs(tables[t], b) <= TableRefs(tables, b)
  {
    TableRefsUpdate(tables, s, [], b);
    TableRefsAtLeast(tables[s := []], t, b);
  }

  lemma {:induction false} TableRefsZero(tables: seq<seq<nat>>, b: nat)
    ensures (forall s :: 0 <= s < |tables| ==> tables[s] == []) ==> TableRefs(tables, b) == 0
  {
    if tables != [] { TableRefsZero(Init(tables), b); }
  }

  // ---- one block's account -------------------------------------------------------

  /** A reference-count dictionary holds exactly the positive counts. */
  ghost predicate Counted(b: nat, rc: map<nat, nat>, total: nat) {
    if b in rc then rc[b] == total && total > 0 else total == 0
  }

  /** Block `b` is accounted for when `total` references to it exist: it is on the free list
      exactly when nothing references it, and counted exactly otherwise. */
  ghost predicate Accounted(b: nat, rc: map<nat, nat>, free: seq<nat>, numBlocks: nat, total: nat) {
    && Counted(b, rc, total)
    && (b in free <==> b < numBlocks && total == 0)
    && (total > 0 ==> b < numBlocks)
  }

  function GetOr(rc: map<nat, nat>, b: nat, default: nat): nat {
    if b in rc then rc[b] else default
  }

  function Incremented(rc: map<nat, nat>, b: nat, default: nat): map<nat, nat> {
    rc[b := GetOr(rc, b, default) + 1]
  }

  /** Drop one reference; a count that reaches zero leaves the dictionary. */
  function Decremented(rc: map<nat, nat>, b: nat, default: nat): map<nat, nat> {
    if GetOr(rc, b, default) <= 1 then rc - {b} else rc[b := GetOr(rc, b, default) - 1]
  }

  /** The free list after one reference to `b` is dropped. */
  function Recycled(rc: map<nat, nat>, free: seq<nat>, b: nat): seq<nat> {
    if GetOr(rc, b, 1) <= 1 then free + [b] else free
  }

  /** Freed blocks go behind the free list, in the order of `blocks`. */
  ghost predicate PutBack(was: seq<nat>, now: seq<nat>, blocks: seq<nat>) {
    && was <= now && SameOrder(blocks, now[|was|..]) && forall b :: b in now[|was|..] ==> b in blocks
  }

  lemma NonePutBack(free: seq<nat>)
    ensures PutBack(free, free, [])
  {
  }

  lemma OnePutBack(was: seq<nat>, free: seq<nat>, rc: map<nat, nat>, blocks: seq<nat>, b: nat)
    requires PutBack(was, free, blocks)
    ensures PutBack(was, Recycled(rc, free, b), blocks + [b])
  {
    hide SameOrder;
    var now := Recycled(rc, free, b);
    if now == free {
      OrderPrefix(blocks, free[|was|..], [b]);
    } else {
      assert now[|was|..] == free[|was|..] + [b];
      OrderJoined(blocks, free[|was|..], [b]);
    }
  }

  /** The blocks `more` came off the end of the free list, the last one first. */
  ghost predicate TakenOff(was: seq<nat>, now: seq<nat>, more: seq<nat>) {
    |now| + |more| == |was| && now == was[..|now|] && forall k :: 0 <= k < |more| ==> more[k] == was[|was| - 1 - k]
  }

  lemma NoneTakenOff(free: seq<nat>)
    ensures TakenOff(free, free, [])
  {
  }

  lemma OneTakenOff(was: seq<nat>, free: seq<nat>, more: seq<nat>)
    requires TakenOff(was, free, more) && free != []
    ensures TakenOff(was, Init(free), more + [Last(free)])
  {
  }

  lemma AllTakenOff(was: seq<nat>, free: seq<nat>, more: seq<nat>)
    requires TakenOff(was, free, more)
    ensures |free| + |more| == |was|
  {
  }

  lemma ReleaseAccounted(rc: map<nat, nat>, free: seq<nat>, numBlocks: nat, b: nat, total: nat)
    requires Accounted(b, rc, free, numBlocks, total) && total > 0
    requires NoDup(free)
    ensures Accounted(b, Decremented(rc, b, 1), Recycled(rc, free, b), numBlocks, total - 1)
    ensures NoDup(Recycled(rc, free, b))
    ensures forall c: nat, n: nat {:trigger Accounted(c, rc, free, numBlocks, n)} ::
              c != b && Accounted(c, rc, free, numBlocks, n) ==>
              Accounted(c, Decremented(rc, b, 1), Recycled(rc, free, b), numBlocks, n)
  {
    var rc', free' := Decremented(rc, b, 1), Recycled(rc, free, b);
    forall c ensures c != b ==> (c in free' <==> c in free) && (c in rc' <==> c in rc) && (c in rc ==> rc'[c] == rc[c]) {
    }
  }

  // ---- the whole account ---------------------------------------------------------

  /** References to block `b` from the slot tables and from the trie. */
  function Owners(tables: seq<seq<nat>>, trie: Node, b: nat): nat {
    TableRefs(tables, b) + Refs(trie, b)
  }

  ghost predicate Balanced(rc: map<nat, nat>, free: seq<nat>, numBlocks: nat, tables: seq<seq<nat>>, trie: Node) {
    forall b: nat :: Accounted(b, rc, free, numBlocks, Owners(tables, trie, b))
  }

  /** Taking a block off the free list for the end of one slot's table. */
  lemma TakeBlock(rc: map<nat, nat>, free: seq<nat>, numBlocks: nat, tables: seq<seq<nat>>, trie: Node, s: nat)
    requires Balanced(rc, free, numBlocks, tables, trie) && NoDup(free) && free != []
    requires s < |tables| && NoDup(tables[s])
    ensures
      var b, now := Last(free), tables[s := tables[s] + [Last(free)]];
      && b < numBlocks && Owners(tables, trie, b) == 0
      && (forall c: nat :: Owners(now, trie, c) == Owners(tables, trie, c) + if c == b then 1 else 0)
      && Balanced(rc[b := 1], Init(free), numBlocks, now, trie)
      && NoDup(Init(free)) && NoDup(now[s])
  {
    var b, now := Last(free), tables[s := tables[s] + [Last(free)]];
    assert b in free && Accounted(b, rc, free, numBlocks, Owners(tables, trie, b));
    TableRefsAtLeast(tables, s, b);
    OccursIn(tables[s], b);
    forall c: nat ensures Owners(now, trie, c) == Owners(tables, trie, c) + if c == b then 1 else 0 {
      TableRefsUpdate(tables, s, now[s], c);
      assert Init(now[s]) == tables[s] && Last(now[s]) == b;
    }
    forall c: nat ensures Accounted(c, rc[b := 1], Init(free), numBlocks, Owners(now, trie, c)) {
      assert Accounted(c, rc, free, numBlocks, Owners(tables, trie, c));
      assert free == Init(free) + [b];
    }
  }

  /** Taking a slot's table away leaves its blocks one reference too many each. */
  lemma DropTable(tables: seq<seq<nat>>, trie: Node, s: nat, b: nat)
    requires s < |tables|
    ensures Owners(tables, trie, b) == Owners(tables[s := []], trie, b) + Occurs(tables[s], b)
  {
    TableRefsUpdate(tables, s, [], b);
  }

  /** Before any request every block is free. */
  lemma AllFree(free: seq<nat>, numBlocks: nat, tables: seq<seq<nat>>)
    requires |free| == numBlocks && forall b :: 0 <= b < numBlocks ==> free[b] == b
    requires forall s :: 0 <= s < |tables| ==> tables[s] == []
    ensures Balanced(map[], free, numBlocks, tables, EMPTY)
  {
    EmptyTrie();
    forall b: nat ensures Accounted(b, map[], free, numBlocks, Owners(tables, EMPTY, b)) {
      TableRefsZero(tables, b);
      if b < numBlocks { assert free[b] == b; }
    }
  }

  /** A slot that points at blocks already owned elsewhere. */
  lemma ShareTable(tables: seq<seq<nat>>, trie: Node, s: nat, blocks: seq<nat>, b: nat)
    requires s < |tables| && tables[s] == []
    ensures Owners(tables[s := blocks], trie, b) == Owners(tables, trie, b) + Occurs(blocks, b)
  {
    TableRefsUpdate(tables, s, blocks, b);
  }

  /** One more reference to a block that already has one. */
  lemma RetainAccounted(rc: map<nat, nat>, free: seq<nat>, numBlocks: nat, b: nat, total: nat)
    requires Accounted(b, rc, free, numBlocks, total) && total > 0
    ensures Accounted(b, Incremented(rc, b, 1), free, numBlocks, total + 1)
    ensures forall c: nat, n: nat {:trigger Accounted(c, rc, free, numBlocks, n)} ::
              c != b && Accounted(c, rc, free, numBlocks, n) ==>
              Accounted(c, Incremented(rc, b, 1), free, numBlocks, n)
  {
  }

  /** A count dictionary tracks one more or one fewer mention of a block. */
  lemma CountedStep(rc: map<nat, nat>, b: nat, total: nat)
    requires Counted(b, rc, total)
    ensures Counted(b, Incremented(rc, b, 0), total + 1)
    ensures total > 0 ==> Counted(b, Decremented(rc, b, 0), total - 1)
    ensures forall c: nat, n: nat {:trigger Counted(c, rc, n)} :: c != b && Counted(c, rc, n) ==>
              Counted(c, Incremented(rc, b, 0), n) && Counted(c, Decremented(rc, b, 0), n)
  {
  }

  /** The trie never pins more distinct blocks than the pool has. */
  lemma PinnedInPool(pins: map<nat, nat>, rc: map<nat, nat>, free: seq<nat>, numBlocks: nat, tables: seq<seq<nat>>, trie: Node)
    requires Balanced(rc, free, numBlocks, tables, trie)
    requires forall b: nat :: Counted(b, pins, Refs(trie, b))
    ensures |pins| <= numBlocks
  {
    forall b | b in pins.Keys ensures b < numBlocks {
      assert Counted(b, pins, Refs(trie, b));
      assert Accounted(b, rc, free, numBlocks, Owners(tables, trie, b));
    }
    SmallKeys(pins.Keys, numBlocks);
    assert |pins| == |pins.Keys|;
  }

  /** A free block is one more block than the trie can have pinned. */
  lemma FreeNotPinned(pins: map<nat, nat>, rc: map<nat, nat>, free: seq<nat>, numBlocks: nat, tables: seq<seq<nat>>,
                      trie: Node)
    requires Balanced(rc, free, numBlocks, tables, trie) && free != []
    requires forall b: nat :: Counted(b, pins, Refs(trie, b))
    ensures |pins| < numBlocks
  {
    var f := free[0];
    assert Accounted(f, rc, free, numBlocks, Owners(tables, trie, f)) && Counted(f, pins, Refs(trie, f));
    forall b | b in pins.Keys ensures b < numBlocks {
      assert Counted(b, pins, Refs(trie, b));
      assert Accounted(b, rc, free, numBlocks, Owners(tables, trie, b));
    }
    SmallKeys(pins.Keys + {f}, numBlocks);
    assert |pins.Keys + {f}| == |pins.Keys| + 1;
    assert |pins| == |pins.Keys|;
  }

  /** A boundary at or before `a` lies at a block index no larger than that of `a`. */
  lemma BoundaryStep(i: nat, bs: nat)
    requires bs > 0
    ensures (i + 1) / bs == i / bs + if (i + 1) % bs == 0 then 1 else 0
  {
    var q, r := i / bs, i % bs;
    assert i == q * bs + r;
    if r == bs - 1 {
      assert i + 1 == (q + 1) * bs + 0;
      DivOf(q + 1, 0, bs);
    } else {
      DivOf(q, r + 1, bs);
    }
  }
}
