/** The radix prefix cache: a nested dictionary keyed by token, with an entry at some of the
    block-aligned nodes. A dictionary is an association list in insertion order, because the
    eviction scan visits it in that order. */
module PrefixTrie {
  import opened Options
  import opened Network

  datatype Entry = Entry(blocks: seq<nat>, numTokens: nat, lru: nat)

  datatype Node = Node(entry: Option<Entry>, kids: Kids)

  datatype Kids = Nil | More(tok: Token, node: Node, rest: Kids)

  const EMPTY := Node(None, Nil)

  function Find(kids: Kids, t: Token): Option<Node> {
    match kids
    case Nil => None
    case More(u, n, rest) => if u == t then Some(n) else Find(rest, t)
  }

  /** `d[t] = n`: an existing key keeps its place, a new one goes last. */
  function Put(kids: Kids, t: Token, n: Node): Kids {
    match kids
    case Nil => More(t, n, Nil)
    case More(u, m, rest) => if u == t then More(u, n, rest) else More(u, m, Put(rest, t, n))
  }

  function Drop(kids: Kids, t: Token): Kids {
    match kids
    case Nil => Nil
    case More(u, m, rest) => if u == t then rest else More(u, m, Drop(rest, t))
  }

  /** The entry stored at `path`, if the node exists and holds one. */
  function At(n: Node, path: seq<Token>): Option<Entry>
    decreases path
  {
    if path == [] then n.entry
    else
      match Find(n.kids, path[0])
      case None => None
      case Some(c) => At(c, path[1..])
  }

  predicate Has(n: Node, path: seq<Token>)
    decreases path
  {
    path == [] || (Find(n.kids, path[0]).Some? && Has(Find(n.kids, path[0]).value, path[1..]))
  }

  /** The `setdefault` walk: create the missing nodes of `path`. */
  function Ensure(n: Node, path: seq<Token>): Node
    decreases path
  {
    if path == [] then n
    else
      var c := match Find(n.kids, path[0]) case None => EMPTY case Some(c) => c;
      n.(kids := Put(n.kids, path[0], Ensure(c, path[1..])))
  }

  /** Set or clear the entry of an existing node. */
  function Fill(n: Node, path: seq<Token>, e: Option<Entry>): Node
    requires Has(n, path)
    decreases path
  {
    if path == [] then n.(entry := e)
    else n.(kids := Put(n.kids, path[0], Fill(Find(n.kids, path[0]).value, path[1..], e)))
  }

  /** Take the entry out of the node at `path`, and the node out of its parent if that
      leaves it with nothing. */
  function Evict(n: Node, path: seq<Token>): Node
    requires path != [] && Has(n, path)
    decreases path
  {
    var c := Find(n.kids, path[0]).value;
    if |path| > 1 then n.(kids := Put(n.kids, path[0], Evict(c, path[1..])))
    else if c.kids.Nil? then n.(kids := Drop(n.kids, path[0]))
    else n.(kids := Put(n.kids, path[0], c.(entry := None)))
  }

  // ---- what the trie references --------------------------------------------------

  /** How often `b` appears in `s`. */
  function Occurs(s: seq<nat>, b: nat): nat {
    if s == [] then 0 else Occurs(Init(s), b) + (if Last(s) == b then 1 else 0)
  }

  function EntryRefs(e: Option<Entry>, b: nat): nat {
    match e case None => 0 case Some(v) => Occurs(v.blocks, b)
  }

  function EntryCount(e: Option<Entry>): nat {
    if e.Some? then 1 else 0
  }

  /** How often the entries of the trie name block `b`. */
  function Refs(n: Node, b: nat): nat {
    EntryRefs(n.entry, b) + KidsRefs(n.kids, b)
  }

  function KidsRefs(kids: Kids, b: nat): nat {
    match kids
    case Nil => 0
    case More(_, n, rest) => Refs(n, b) + KidsRefs(rest, b)
  }

  function Count(n: Node): nat {
    EntryCount(n.entry) + KidsCount(n.kids)
  }

  function KidsCount(kids: Kids): nat {
    match kids
    case Nil => 0
    case More(_, n, rest) => Count(n) + KidsCount(rest)
  }

  /** Keys are unique in every dictionary of the trie. */
  ghost predicate Distinct(n: Node) {
    KidsDistinct(n.kids)
  }

  ghost predicate KidsDistinct(kids: Kids) {
    match kids
    case Nil => true
    case More(t, n, rest) => Find(rest, t).None? && Distinct(n) && KidsDistinct(rest)
  }

  // ---- dictionary laws -----------------------------------------------------------

  lemma FindPut(kids: Kids, t: Token, n: Node, u: Token)
    ensures Find(Put(kids, t, n), u) == if u == t then Some(n) else Find(kids, u)
  {
  }

  lemma FindDrop(kids: Kids, t: Token, u: Token)
    requires KidsDistinct(kids)
    ensures Find(Drop(kids, t), u) == if u == t then None else Find(kids, u)
  {
  }

  lemma {:induction false} PutMeasures(kids: Kids, t: Token, n: Node, b: nat)
    requires KidsDistinct(kids) && Distinct(n)
    ensures KidsDistinct(Put(kids, t, n))
    ensures
      var was := Find(kids, t);
      && KidsRefs(Put(kids, t, n), b) + (if was.Some? then Refs(was.value, b) else 0) == KidsRefs(kids, b) + Refs(n, b)
      && KidsCount(Put(kids, t, n)) + (if was.Some? then Count(was.value) else 0) == KidsCount(kids) + Count(n)
  {
    match kids
    case Nil =>
    case More(u, m, rest) =>
      if u != t {
        PutMeasures(rest, t, n, b);
        FindPut(rest, t, n, u);
      }
  }

  lemma {:induction false} DropMeasures(kids: Kids, t: Token, b: nat)
    requires KidsDistinct(kids) && Find(kids, t).Some?
    ensures KidsDistinct(Drop(kids, t))
    ensures KidsRefs(Drop(kids, t), b) + Refs(Find(kids, t).value, b) == KidsRefs(kids, b)
    ensures KidsCount(Drop(kids, t)) + Count(Find(kids, t).value) == KidsCount(kids)
  {
    match kids
    case More(u, m, rest) =>
      if u != t {
        DropMeasures(rest, t, b);
        FindDrop(rest, t, u);
      }
  }

  lemma {:induction false} FindDistinct(kids: Kids, t: Token)
    requires KidsDistinct(kids) && Find(kids, t).Some?
    ensures Distinct(Find(kids, t).value)
    ensures forall b :: Refs(Find(kids, t).value, b) <= KidsRefs(kids, b)
  {
    match kids
    case More(u, m, rest) => if u != t { FindDistinct(rest, t); }
  }

  // ---- paths ---------------------------------------------------------------------

  lemma {:induction false} AtHas(n: Node, path: seq<Token>)
    requires At(n, path).Some?
    ensures Has(n, path)
    decreases path
  {
    if path != [] { AtHas(Find(n.kids, path[0]).value, path[1..]); }
  }

  lemma {:induction false} HasPrefix(n: Node, path: seq<Token>, k: nat)
    requires Has(n, path) && k <= |path|
    ensures Has(n, path[..k])
    decreases path
  {
    if k > 0 {
      HasPrefix(Find(n.kids, path[0]).value, path[1..], k - 1);
      assert path[..k][1..] == path[1..][..k - 1];
    }
  }

  /** The entries of `now` are those of `was` except that `path` holds `e`. */
  ghost predicate EntriesReplaced(was: Node, now: Node, path: seq<Token>, e: Option<Entry>) {
    forall q :: At(now, q) == if q == path then e else At(was, q)
  }

  /** ... and the reference counts moved by exactly that exchange. */
  ghost predicate RefsReplaced(was: Node, now: Node, gone: Option<Entry>, e: Option<Entry>) {
    && (forall b :: Refs(now, b) + EntryRefs(gone, b) == Refs(was, b) + EntryRefs(e, b))
    && Count(now) + EntryCount(gone) == Count(was) + EntryCount(e)
  }

  ghost predicate Replaced(was: Node, now: Node, path: seq<Token>, e: Option<Entry>) {
    && Distinct(now)
    && EntriesReplaced(was, now, path, e)
    && RefsReplaced(was, now, At(was, path), e)
  }

  lemma ChildEntries(n: Node, t: Token, c: Node, c': Node, path: seq<Token>, e: Option<Entry>)
    requires Find(n.kids, t) == Some(c) || (Find(n.kids, t).None? && c == EMPTY)
    requires EntriesReplaced(c, c', path, e)
    ensures EntriesReplaced(n, n.(kids := Put(n.kids, t, c')), [t] + path, e)
  {
    forall q ensures At(n.(kids := Put(n.kids, t, c')), q) == if q == [t] + path then e else At(n, q) {
      if q != [] {
        FindPut(n.kids, t, c', q[0]);
        assert q == [q[0]] + q[1..];
      }
    }
  }

  lemma ChildRefs(n: Node, t: Token, c: Node, c': Node, gone: Option<Entry>, e: Option<Entry>)
    requires Distinct(n) && Distinct(c')
    requires Find(n.kids, t) == Some(c) || (Find(n.kids, t).None? && c == EMPTY)
    requires RefsReplaced(c, c', gone, e)
    ensures Distinct(n.(kids := Put(n.kids, t, c')))
    ensures RefsReplaced(n, n.(kids := Put(n.kids, t, c')), gone, e)
  {
    var now := n.(kids := Put(n.kids, t, c'));
    ChildCount(n, t, c, c');
    forall b ensures Refs(now, b) + EntryRefs(gone, b) == Refs(n, b) + EntryRefs(e, b) {
      assert Refs(c', b) + EntryRefs(gone, b) == Refs(c, b) + EntryRefs(e, b);
      ChildRefsOne(n, t, c, c', EntryRefs(gone, b), EntryRefs(e, b), b);
    }
  }

  lemma ChildCount(n: Node, t: Token, c: Node, c': Node)
    requires Distinct(n) && Distinct(c')
    requires Find(n.kids, t) == Some(c) || (Find(n.kids, t).None? && c == EMPTY)
    ensures Distinct(n.(kids := Put(n.kids, t, c')))
    ensures Count(n.(kids := Put(n.kids, t, c'))) + Count(c) == Count(n) + Count(c')
  {
    PutMeasures(n.kids, t, c', 0);
  }

  lemma ChildRefsOne(n: Node, t: Token, c: Node, c': Node, less: nat, more: nat, b: nat)
    requires Distinct(n) && Distinct(c')
    requires Find(n.kids, t) == Some(c) || (Find(n.kids, t).None? && c == EMPTY)
    requires Refs(c', b) + less == Refs(c, b) + more
    ensures Refs(n.(kids := Put(n.kids, t, c')), b) + less == Refs(n, b) + more
  {
    PutMeasures(n.kids, t, c', b);
  }

  lemma ChildReplaced(n: Node, t: Token, c: Node, c': Node, path: seq<Token>, e: Option<Entry>)
    requires Distinct(n) && path != [] && path[0] == t
    requires Find(n.kids, t) == Some(c) || (Find(n.kids, t).None? && c == EMPTY)
    requires Replaced(c, c', path[1..], e)
    ensures Replaced(n, n.(kids := Put(n.kids, t, c')), path, e)
  {
    assert path == [t] + path[1..];
    assert At(n, path) == At(c, path[1..]);
    ChildEntries(n, t, c, c', path[1..], e);
    ChildRefs(n, t, c, c', At(n, path), e);
  }

  lemma {:induction false} EnsureReplaced(n: Node, path: seq<Token>)
    requires Distinct(n)
    ensures Replaced(n, Ensure(n, path), path, At(n, path))
    ensures Has(Ensure(n, path), path)
    decreases path
  {
    if path != [] {
      var t := path[0];
      var c := match Find(n.kids, t) case None => EMPTY case Some(c) => c;
      if Find(n.kids, t).Some? { FindDistinct(n.kids, t); }
      EnsureReplaced(c, path[1..]);
      assert At(c, path[1..]) == At(n, path);
      ChildReplaced(n, t, c, Ensure(c, path[1..]), path, At(n, path));
      FindPut(n.kids, t, Ensure(c, path[1..]), t);
    }
  }

  lemma {:induction false} FillReplaced(n: Node, path: seq<Token>, e: Option<Entry>)
    requires Distinct(n) && Has(n, path)
    ensures Replaced(n, Fill(n, path, e), path, e)
    decreases path
  {
    if path != [] {
      var t := path[0];
      var c := Find(n.kids, t).value;
      FindDistinct(n.kids, t);
      FillReplaced(c, path[1..], e);
      ChildReplaced(n, t, c, Fill(c, path[1..], e), path, e);
    }
  }

  lemma DropEntries(n: Node, t: Token)
    requires Distinct(n) && Find(n.kids, t).Some? && Find(n.kids, t).value.kids.Nil?
    ensures EntriesReplaced(n, n.(kids := Drop(n.kids, t)), [t], None)
  {
    forall q ensures At(n.(kids := Drop(n.kids, t)), q) == if q == [t] then None else At(n, q) {
      if q != [] {
        FindDrop(n.kids, t, q[0]);
        assert q == [q[0]] + q[1..];
      }
    }
  }

  lemma DropRefs(n: Node, t: Token, b: nat)
    requires Distinct(n) && Find(n.kids, t).Some? && Find(n.kids, t).value.kids.Nil?
    ensures
      var now, gone := n.(kids := Drop(n.kids, t)), Find(n.kids, t).value.entry;
      && Distinct(now)
      && Refs(now, b) + EntryRefs(gone, b) == Refs(n, b)
      && Count(now) + EntryCount(gone) == Count(n)
  {
    DropMeasures(n.kids, t, b);
  }

  lemma DropReplaced(n: Node, t: Token)
    requires Distinct(n) && Find(n.kids, t).Some? && Find(n.kids, t).value.kids.Nil?
    ensures Replaced(n, n.(kids := Drop(n.kids, t)), [t], None)
  {
    var now := n.(kids := Drop(n.kids, t));
    assert At(n, [t]) == Find(n.kids, t).value.entry;
    DropEntries(n, t);
    DropRefs(n, t, 0);
    forall b ensures Refs(now, b) + EntryRefs(At(n, [t]), b) == Refs(n, b) {
      DropRefs(n, t, b);
    }
  }

  lemma {:induction false} EvictReplaced(n: Node, path: seq<Token>)
    requires Distinct(n) && path != [] && Has(n, path)
    ensures Replaced(n, Evict(n, path), path, None)
    decreases path
  {
    var t := path[0];
    var c := Find(n.kids, t).value;
    FindDistinct(n.kids, t);
    if |path| > 1 {
      EvictReplaced(c, path[1..]);
      ChildReplaced(n, t, c, Evict(c, path[1..]), path, None);
    } else if c.kids.Nil? {
      DropReplaced(n, t);
      assert path == [t];
    } else {
      FillReplaced(c, [], None);
      ChildReplaced(n, t, c, c.(entry := None), path, None);
    }
  }

  /** Eviction never detaches a node that has no entry of its own, so the node the store
      walk is standing on stays in the trie while an older entry is evicted. */
  lemma {:induction false} EvictKeepsNode(n: Node, path: seq<Token>, q: seq<Token>)
    requires Distinct(n) && path != [] && Has(n, path) && At(n, path).Some?
    requires Has(n, q) && q != path
    ensures Has(Evict(n, path), q)
    decreases path
  {
    if q != [] {
      var t := path[0];
      var c := Find(n.kids, t).value;
      if q[0] == t {
        if |path| > 1 {
          FindDistinct(n.kids, t);
          assert q[1..] != path[1..] by { assert q == [t] + q[1..] && path == [t] + path[1..]; }
          EvictKeepsNode(c, path[1..], q[1..]);
          FindPut(n.kids, t, Evict(c, path[1..]), t);
        } else {
          assert q[1..] != [] by { assert q == [t] + q[1..] && path == [t]; }
          assert !c.kids.Nil?;
          FindPut(n.kids, t, c.(entry := None), t);
        }
      } else if |path| > 1 {
        FindPut(n.kids, t, Evict(c, path[1..]), q[0]);
      } else {
        FindDrop(n.kids, t, q[0]);
        FindPut(n.kids, t, c.(entry := None), q[0]);
      }
    }
  }

  // ---- the eviction scan ---------------------------------------------------------

  datatype Found = Found(path: seq<Token>, lru: nat)

  /** The scan for the oldest stamp: a node's own entry first, then its children, keeping the
      first of equal stamps. */
  function Scan(kids: Kids, path: seq<Token>, best: Option<Found>): Option<Found> {
    match kids
    case Nil => best
    case More(t, n, rest) =>
      var here :=
        if n.entry.Some? && (best.None? || n.entry.value.lru < best.value.lru)
        then Some(Found(path + [t], n.entry.value.lru)) else best;
      Scan(rest, path, Scan(n.kids, path + [t], here))
  }

  function AtKids(kids: Kids, q: seq<Token>): Option<Entry>
    requires q != []
  {
    match Find(kids, q[0])
    case None => None
    case Some(c) => At(c, q[1..])
  }

  ghost predicate FoundAt(kids: Kids, path: seq<Token>, f: Found, q: seq<Token>) {
    q != [] && f.path == path + q && AtKids(kids, q).Some? && AtKids(kids, q).value.lru == f.lru
  }

  /** Every entry on the way to `q` was used later. */
  ghost predicate FirstOnWay(kids: Kids, q: seq<Token>, lru: nat) {
    forall k :: 0 < k < |q| && AtKids(kids, q[..k]).Some? ==> AtKids(kids, q[..k]).value.lru > lru
  }

  /** The entry at `q` is what was found; it is older than `best`, and so is nothing on the way to it. */
  ghost predicate FoundFirst(kids: Kids, path: seq<Token>, best: Option<Found>, f: Found, q: seq<Token>) {
    FoundAt(kids, path, f, q) && FirstOnWay(kids, q, f.lru) && (best.Some? ==> f.lru < best.value.lru)
  }

  /** `r` is the best of `best` and the entries below `kids`, and the first of the best on its path. */
  ghost predicate Oldest(kids: Kids, path: seq<Token>, best: Option<Found>, r: Option<Found>) {
    && (r == best
        || (r.Some? && exists q :: FoundFirst(kids, path, best, r.value, q)))
    && (best.Some? ==> r.Some? && r.value.lru <= best.value.lru)
    && (forall q :: q != [] && AtKids(kids, q).Some? ==> r.Some? && r.value.lru <= AtKids(kids, q).value.lru)
  }

  lemma {:induction false} ScanOldest(kids: Kids, path: seq<Token>, best: Option<Found>)
    requires KidsDistinct(kids)
    ensures Oldest(kids, path, best, Scan(kids, path, best))
  {
    match kids
    case Nil =>
    case More(t, n, rest) =>
      var here :=
        if n.entry.Some? && (best.None? || n.entry.value.lru < best.value.lru)
        then Some(Found(path + [t], n.entry.value.lru)) else best;
      var mid := Scan(n.kids, path + [t], here);
      var r := Scan(rest, path, mid);
      ScanOldest(n.kids, path + [t], here);
      ScanOldest(rest, path, mid);
      ScanLeast(kids, path, best, here, mid, r);
      ScanFound(kids, path, best, here, mid, r);
  }

  /** Nothing older than what the scan found. */
  lemma ScanLeast(kids: Kids, path: seq<Token>, best: Option<Found>, here: Option<Found>, mid: Option<Found>,
                  r: Option<Found>)
    requires kids.More? && KidsDistinct(kids)
    requires
      var e := kids.node.entry;
      here == if e.Some? && (best.None? || e.value.lru < best.value.lru)
              then Some(Found(path + [kids.tok], e.value.lru)) else best
    requires Oldest(kids.node.kids, path + [kids.tok], here, mid) && Oldest(kids.rest, path, mid, r)
    ensures best.Some? ==> r.Some? && r.value.lru <= best.value.lru
    ensures forall q :: q != [] && AtKids(kids, q).Some? ==> r.Some? && r.value.lru <= AtKids(kids, q).value.lru
  {
    hide KidsDistinct, FoundAt;
    forall q | q != [] && AtKids(kids, q).Some?
      ensures r.Some? && r.value.lru <= AtKids(kids, q).value.lru
    {
      if q[0] == kids.tok {
        if q[1..] != [] { assert AtKids(kids.node.kids, q[1..]) == AtKids(kids, q); }
      } else {
        assert AtKids(kids.rest, q) == AtKids(kids, q);
      }
    }
  }

  /** What the scan found is there. */
  lemma ScanFound(kids: Kids, path: seq<Token>, best: Option<Found>, here: Option<Found>, mid: Option<Found>,
                  r: Option<Found>)
    requires kids.More? && KidsDistinct(kids)
    requires
      var e := kids.node.entry;
      here == if e.Some? && (best.None? || e.value.lru < best.value.lru)
              then Some(Found(path + [kids.tok], e.value.lru)) else best
    requires Oldest(kids.node.kids, path + [kids.tok], here, mid) && Oldest(kids.rest, path, mid, r)
    ensures r == best || (r.Some? && exists q :: FoundFirst(kids, path, best, r.value, q))
  {
    hide KidsDistinct, FoundAt, FirstOnWay;
    if r != mid {
      var q :| FoundFirst(kids.rest, path, mid, r.value, q);
      FoundLater(kids, path, r.value, q);
      WayLater(kids, path, r.value, q);
      assert FoundFirst(kids, path, best, r.value, q);
    } else if mid != here {
      var q :| FoundFirst(kids.node.kids, path + [kids.tok], here, mid.value, q);
      FoundBelow(kids, path, mid.value, q);
      WayBelow(kids, q, mid.value.lru);
      assert FoundFirst(kids, path, best, mid.value, [kids.tok] + q);
    } else if here != best {
      FoundHere(kids, path, here.value);
      WayHere(kids, here.value.lru);
      assert FoundFirst(kids, path, best, here.value, [kids.tok]);
    }
  }

  lemma WayLater(kids: Kids, path: seq<Token>, f: Found, q: seq<Token>)
    requires kids.More? && KidsDistinct(kids) && FirstOnWay(kids.rest, q, f.lru) && FoundAt(kids.rest, path, f, q)
    ensures FirstOnWay(kids, q, f.lru)
  {
    forall k | 0 < k < |q| ensures AtKids(kids, q[..k]) == AtKids(kids.rest, q[..k]) {
      assert q[..k][0] == q[0];
    }
  }

  lemma WayBelow(kids: Kids, q: seq<Token>, lru: nat)
    requires kids.More? && FirstOnWay(kids.node.kids, q, lru)
    requires kids.node.entry.Some? ==> lru < kids.node.entry.value.lru
    ensures FirstOnWay(kids, [kids.tok] + q, lru)
  {
    var all := [kids.tok] + q;
    forall k | 0 < k < |all| && AtKids(kids, all[..k]).Some? ensures AtKids(kids, all[..k]).value.lru > lru {
      assert all[..k][1..] == q[..k - 1];
      if k > 1 { assert AtKids(kids, all[..k]) == AtKids(kids.node.kids, q[..k - 1]); }
    }
  }

  lemma WayHere(kids: Kids, lru: nat)
    requires kids.More?
    ensures FirstOnWay(kids, [kids.tok], lru)
  {
  }

  lemma FoundLater(kids: Kids, path: seq<Token>, f: Found, q: seq<Token>)
    requires kids.More? && KidsDistinct(kids) && FoundAt(kids.rest, path, f, q)
    ensures FoundAt(kids, path, f, q)
  {
  }

  lemma FoundBelow(kids: Kids, path: seq<Token>, f: Found, q: seq<Token>)
    requires kids.More? && FoundAt(kids.node.kids, path + [kids.tok], f, q)
    ensures FoundAt(kids, path, f, [kids.tok] + q)
  {
    assert ([kids.tok] + q)[1..] == q && path + [kids.tok] + q == path + ([kids.tok] + q);
  }

  lemma FoundHere(kids: Kids, path: seq<Token>, f: Found)
    requires kids.More? && kids.node.entry.Some? && f == Found(path + [kids.tok], kids.node.entry.value.lru)
    ensures FoundAt(kids, path, f, [kids.tok])
  {
  }

  /** The scan from the root finds an entry of minimal stamp, of several on one path the shortest,
      or there is no entry at all. */
  lemma ScanRoot(root: Node)
    requires Distinct(root) && root.entry.None?
    ensures
      match Scan(root.kids, [], None)
      case None => forall q :: At(root, q).None?
      case Some(f) =>
        && f.path != [] && At(root, f.path).Some? && At(root, f.path).value.lru == f.lru
        && LeastUsed(root, f.path)
  {
    ScanOldest(root.kids, [], None);
    var r := Scan(root.kids, [], None);
    forall q ensures q != [] ==> At(root, q) == AtKids(root.kids, q) {
    }
    if r.Some? {
      var q :| FoundFirst(root.kids, [], None, r.value, q);
      assert [] + q == q;
      forall p | p < q && At(root, p).Some? ensures r.value.lru < At(root, p).value.lru {
        assert p == q[..|p|];
      }
    }
  }

  /** No entry was used before the one at `path`, and of those used with it none is on the way to it. */
  ghost predicate LeastUsed(root: Node, path: seq<Token>) {
    && At(root, path).Some?
    && (forall q :: At(root, q).Some? ==> At(root, path).value.lru <= At(root, q).value.lru)
    && (forall q :: q < path && At(root, q).Some? ==> At(root, path).value.lru < At(root, q).value.lru)
  }

  lemma EmptyTrie()
    ensures Distinct(EMPTY) && Count(EMPTY) == 0
    ensures forall q :: At(EMPTY, q).None?
    ensures forall b :: Refs(EMPTY, b) == 0
  {
  }

  /** A trie without entries references no block. */
  lemma {:induction false} NoEntriesNoRefs(n: Node)
    requires Distinct(n) && forall q :: At(n, q).None?
    ensures (forall b :: Refs(n, b) == 0) && Count(n) == 0
    decreases n
  {
    assert At(n, []).None?;
    forall q | q != [] ensures AtKids(n.kids, q).None? {
      assert At(n, q) == AtKids(n.kids, q);
    }
    NoKidEntriesNoRefs(n.kids);
  }

  lemma {:induction false} NoKidEntriesNoRefs(kids: Kids)
    requires KidsDistinct(kids) && forall q :: q != [] ==> AtKids(kids, q).None?
    ensures (forall b :: KidsRefs(kids, b) == 0) && KidsCount(kids) == 0
    decreases kids
  {
    match kids
    case Nil =>
    case More(t, n, rest) =>
      forall q ensures At(n, q).None? {
        assert ([t] + q)[1..] == q;
        assert AtKids(kids, [t] + q).None?;
      }
      forall q | q != [] ensures AtKids(rest, q).None? {
        assert q[0] != t ==> AtKids(rest, q) == AtKids(kids, q);
      }
      NoEntriesNoRefs(n);
      NoKidEntriesNoRefs(rest);
  }

  lemma SomeEntry(n: Node)
    requires Distinct(n)
    ensures Count(n) > 0 ==> exists q :: At(n, q).Some?
  {
    if forall q :: At(n, q).None? {
      NoEntriesNoRefs(n);
    }
  }

  /** An entry's blocks are counted. */
  lemma {:induction false} EntryCounted(n: Node, path: seq<Token>)
    requires Distinct(n) && At(n, path).Some?
    ensures forall b :: EntryRefs(At(n, path), b) <= Refs(n, b)
    decreases path
  {
    if path != [] {
      FindDistinct(n.kids, path[0]);
      EntryCounted(Find(n.kids, path[0]).value, path[1..]);
    }
  }
}
