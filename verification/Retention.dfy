/** What storing a prompt leaves in the prefix cache: a prompt whose own blocks fit the limits is
    never pushed out by the eviction its own arrival causes. */
module Retention {
  import opened Options
  import opened Lists
  import opened Network
  import opened PrefixTrie
  import opened Blocks
  import opened PagedCache

  /** A block the trie references is named by an entry. */
  lemma {:induction false} RefsEntry(n: Node, b: nat)
    requires Distinct(n) && Refs(n, b) > 0
    ensures exists q :: At(n, q).Some? && b in At(n, q).value.blocks
    decreases n
  {
    if EntryRefs(n.entry, b) > 0 {
      OccursIn(n.entry.value.blocks, b);
      assert At(n, []) == n.entry;
    } else {
      var q := KidsRefsEntry(n.kids, b);
      assert At(n, q) == AtKids(n.kids, q);
    }
  }

  lemma {:induction false} KidsRefsEntry(kids: Kids, b: nat) returns (q: seq<Token>)
    requires KidsDistinct(kids) && KidsRefs(kids, b) > 0
    ensures q != [] && AtKids(kids, q).Some? && b in AtKids(kids, q).value.blocks
    decreases kids
  {
    match kids
    case More(t, n, rest) =>
      if Refs(n, b) > 0 {
        RefsEntry(n, b);
        var p :| At(n, p).Some? && b in At(n, p).value.blocks;
        q := [t] + p;
        assert q[1..] == p;
      } else {
        q := KidsRefsEntry(rest, b);
      }
  }

  /** How many of the first `k` prefixes of `path`, the empty one included, hold an entry. */
  function Held(n: Node, path: seq<Token>, k: nat): nat
    requires k <= |path|
  {
    EntryCount(At(n, path[..k])) + if k == 0 then 0 else Held(n, path, k - 1)
  }

  lemma {:induction false} HeldBelow(n: Node, path: seq<Token>, k: nat)
    requires path != [] && 0 < k <= |path|
    ensures
      match Find(n.kids, path[0])
      case None => Held(n, path, k) == EntryCount(n.entry)
      case Some(c) => Held(n, path, k) == EntryCount(n.entry) + Held(c, path[1..], k - 1)
  {
    assert path[..k][1..] == path[1..][..k - 1];
    if k > 1 {
      HeldBelow(n, path, k - 1);
    }
  }

  /** All entries lie on `path`. */
  ghost predicate OnPath(n: Node, path: seq<Token>) {
    forall q :: At(n, q).Some? ==> q <= path
  }

  /** Entries that all lie on one path are as many as it holds. */
  lemma {:induction false} CountOnPath(n: Node, path: seq<Token>)
    requires Distinct(n) && OnPath(n, path)
    ensures Count(n) == Held(n, path, |path|)
    decreases path
  {
    forall q | q != [] ensures AtKids(n.kids, q) == At(n, q) {
    }
    if path == [] {
      NoKidEntriesNoRefs(n.kids);
    } else {
      KidsOnPath(n.kids, path);
      HeldBelow(n, path, |path|);
    }
  }

  lemma {:induction false} KidsOnPath(kids: Kids, path: seq<Token>)
    requires KidsDistinct(kids) && path != [] && forall q :: q != [] && AtKids(kids, q).Some? ==> q <= path
    ensures
      match Find(kids, path[0])
      case None => KidsCount(kids) == 0
      case Some(c) => KidsCount(kids) == Held(c, path[1..], |path| - 1)
    decreases path, kids
  {
    match kids
    case Nil =>
    case More(t, n, rest) =>
      forall q | At(n, q).Some? ensures [t] + q <= path {
        assert ([t] + q)[1..] == q;
        assert AtKids(kids, [t] + q).Some?;
      }
      forall q | q != [] && AtKids(rest, q).Some? ensures q <= path {
        assert AtKids(kids, q) == AtKids(rest, q);
      }
      if t == path[0] {
        forall q | q != [] ensures AtKids(rest, q).None? {
        }
        NoKidEntriesNoRefs(rest);
        forall q | At(n, q).Some? ensures q <= path[1..] {
          assert ([t] + q)[1..] == q;
        }
        CountOnPath(n, path[1..]);
      } else {
        forall q ensures At(n, q).None? {
          assert ([t] + q)[0] == t;
        }
        NoEntriesNoRefs(n);
        KidsOnPath(rest, path);
      }
  }

  /** Only block boundaries hold entries, and not all of them do if one is missing. */
  lemma {:induction false} HeldAtBoundaries(n: Node, path: seq<Token>, k: nat, bs: nat, gap: nat)
    requires bs > 0 && k <= |path|
    requires forall j :: 0 <= j <= |path| && At(n, path[..j]).Some? ==> j > 0 && j % bs == 0
    requires 0 < gap <= |path| && gap % bs == 0 && At(n, path[..gap]).None?
    ensures Held(n, path, k) + (if gap <= k then 1 else 0) <= k / bs
  {
    if k == 0 {
      DivOf(0, 0, bs);
    } else {
      HeldAtBoundaries(n, path, k - 1, bs, gap);
      BoundaryStep(k - 1, bs);
    }
  }

  /** The entries with the stamp of now are entries of `tokens`. */
  lemma StampedOnPath(was: Node, now: Node, tokens: seq<Token>, stamp: nat)
    requires Restamped(was, now, tokens, stamp)
    requires forall q :: At(was, q).Some? ==> At(was, q).value.lru < stamp
    requires forall q :: At(now, q).Some? ==> At(now, q).value.lru == stamp
    ensures OnPath(now, tokens)
  {
    forall q | At(now, q).Some? ensures q <= tokens {
      assert At(was, q).Some? ==> At(was, q).value.lru < stamp;
    }
  }

  /** The walk stores the whole prompt if the entry limit can hold its entries. */
  lemma WholeWalk(was: Node, now: Node, tokens: seq<Token>, table: seq<nat>, bs: nat, stamp: nat, limit: Option<nat>)
    requires bs > 0 && Walked(was, now, tokens, |tokens|, table, bs, stamp, limit)
    requires Distinct(now) && EntriesOk(now, bs, stamp)
    requires forall q :: At(was, q).Some? ==> At(was, q).value.lru < stamp
    requires limit.Some? ==> |tokens| / bs <= limit.value
    ensures AllStored(now, tokens, |tokens|, bs)
  {
    hide StoredPath, LimitKept, OldestGone, Restamped, EntriesOk;
    forall k | 0 < k <= |tokens| && k % bs == 0 ensures At(now, tokens[..k]).Some? {
      if At(now, tokens[..k]).None? {
        assert LastAt(now, tokens[..k], stamp);
        StampedOnPath(was, now, tokens, stamp);
        CountOnPath(now, tokens);
        EntriesAtBoundaries(now, tokens, bs, stamp);
        HeldAtBoundaries(now, tokens, |tokens|, bs, k);
      }
    }
  }

  lemma EntriesAtBoundaries(n: Node, tokens: seq<Token>, bs: nat, stamp: nat)
    requires bs > 0 && EntriesOk(n, bs, stamp)
    ensures forall j :: 0 <= j <= |tokens| && At(n, tokens[..j]).Some? ==> j > 0 && j % bs == 0
  {
    forall j | 0 <= j <= |tokens| && At(n, tokens[..j]).Some? ensures j > 0 && j % bs == 0 {
      var e := At(n, tokens[..j]).value;
      assert EntryOk(tokens[..j], e, bs);
      DivOf(|e.blocks|, 0, bs);
    }
  }

  /** The entries of `tokens` name blocks of `own` only. */
  ghost predicate PathPins(n: Node, tokens: seq<Token>, own: set<nat>) {
    forall q :: At(n, q).Some? && q <= tokens ==> forall b :: b in At(n, q).value.blocks ==> b in own
  }

  /** A trie whose entries all lie on the stored path pins no block but its own. */
  lemma PinsOwn(n: Node, tokens: seq<Token>, own: set<nat>, budget: nat)
    requires Distinct(n) && OnPath(n, tokens) && PathPins(n, tokens, own) && |own| <= budget
    ensures !PinsOver(n, budget)
  {
    forall pins: set<nat> | forall b :: b in pins ==> Refs(n, b) > 0 ensures |pins| <= budget {
      forall b | b in pins ensures b in own {
        RefsEntry(n, b);
      }
      SubsetCard(pins, own);
    }
  }

  /** What the last eviction took was not of the stored prompt. */
  lemma BudgetSpares(was: Node, full: Node, before: Node, path: seq<Token>, now: Node, tokens: seq<Token>,
                     own: set<nat>, bs: nat, stamp: nat, budget: nat, k: nat)
    requires bs > 0 && LastEvicted(full, before, path, now) && PinsOver(before, budget) && |own| <= budget
    requires Restamped(was, full, tokens, stamp) && PathPins(full, tokens, own)
    requires forall q :: At(was, q).Some? ==> At(was, q).value.lru < stamp
    requires forall q :: At(full, q).Some? ==> At(full, q).value.lru <= stamp
    requires k <= |tokens| && At(full, tokens[..k]).Some? && At(full, tokens[..k]).value.lru == stamp
    ensures At(now, tokens[..k]).Some?
  {
    if At(now, tokens[..k]).None? {
      forall q | At(before, q).Some? ensures At(before, q) == At(full, q) && At(before, q).value.lru == stamp {
        assert At(before, tokens[..k]).Some? ==> path == tokens[..k];
      }
      assert Restamped(was, before, tokens, stamp);
      StampedOnPath(was, before, tokens, stamp);
      PinsOwn(before, tokens, own, budget);
    }
  }

  lemma PathStillPins(was: Node, full: Node, tokens: seq<Token>, table: seq<nat>, own: set<nat>)
    requires StoredPath(was, full, tokens, table) && PathPins(was, tokens, own) && forall b :: b in table ==> b in own
    ensures PathPins(full, tokens, own)
  {
    forall q, b | At(full, q).Some? && q <= tokens && b in At(full, q).value.blocks ensures b in own {
      assert (At(was, q).Some? && b in At(was, q).value.blocks) || At(full, q).value.blocks <= table;
    }
  }

  /** A stored prompt keeps every entry, however full the cache was, if the limit has room for as many
      as it has whole blocks and the budget for the blocks it has, its own and those under which its
      boundaries were stored earlier: what has to go for it is older. */
  lemma OwnPromptStays(was: Node, now: Node, tokens: seq<Token>, table: seq<nat>, own: set<nat>, bs: nat, stamp: nat,
                       limit: Option<nat>, budget: Option<nat>)
    requires bs > 0 && StoredWithin(was, now, tokens, table, bs, stamp, limit, budget) && |table| == |tokens| / bs
    requires forall q :: At(was, q).Some? ==> At(was, q).value.lru < stamp
    requires PathPins(was, tokens, own) && forall b :: b in table ==> b in own
    requires (limit.Some? ==> |table| <= limit.value) && (budget.Some? ==> |own| <= budget.value)
    ensures AllStored(now, tokens, |tokens|, bs)
  {
    hide StoredPath, OldestGone, LimitKept, Restamped, PathPins, LastEvicted, PinsOver;
    var full :| Walked(was, full, tokens, |tokens|, table, bs, stamp, limit) && Enforced(full, now, budget);
    WholeWalk(was, full, tokens, table, bs, stamp, limit);
    PathStillPins(was, full, tokens, table, own);
    if now != full {
      var before, path :| LastEvicted(full, before, path, now) && PinsOver(before, budget.value);
      forall k | 0 < k <= |tokens| && k % bs == 0 ensures At(now, tokens[..k]).Some? {
        assert LastAt(full, tokens[..k], stamp);
        BudgetSpares(was, full, before, path, now, tokens, own, bs, stamp, budget.value, k);
      }
    }
  }

  /** Such a prompt is found again up to its last whole block. */
  lemma StoredThenFound(now: Node, tokens: seq<Token>, bs: nat, stamp: nat, matched: nat, blocks: seq<nat>)
    requires bs > 0 && AllStored(now, tokens, |tokens|, bs) && EntriesOk(now, bs, stamp)
    requires LongestMatch(now, tokens, matched, blocks)
    ensures matched == |tokens| / bs * bs
  {
    hide EntriesOk;
    var whole := |tokens| / bs * bs;
    WholeBlocks(|tokens|, bs);
    assert whole > 0 ==> At(now, tokens[..whole]).Some?;
    assert whole <= matched;
    if matched != whole {
      EntriesAtBoundaries(now, tokens, bs, stamp);
      Between(|tokens|, matched, bs);
    }
  }

  /** The whole blocks of `n` positions end at a boundary. */
  lemma WholeBlocks(n: nat, bs: nat)
    requires bs > 0
    ensures n / bs * bs <= n && (n / bs * bs) % bs == 0
  {
    assert n == n / bs * bs + n % bs;
    DivOf(n / bs, 0, bs);
  }

  /** No boundary lies past the last whole block. */
  lemma Between(n: nat, k: nat, bs: nat)
    requires bs > 0 && n / bs * bs < k <= n
    ensures k % bs != 0
  {
    assert n == n / bs * bs + n % bs;
    DivOf(n / bs, k - n / bs * bs, bs);
  }
}
