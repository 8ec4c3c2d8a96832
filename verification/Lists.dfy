/** Lists without repetitions, and how many different elements a list has. */
module Lists {
  import opened Network

  ghost predicate NoDup<T>(s: seq<T>) {
    forall i, j :: 0 <= i < j < |s| ==> s[i] != s[j]
  }

  lemma NoDupNil<T>()
    ensures NoDup<T>([])
  {
  }

  lemma NoDupAppend<T>(s: seq<T>, x: T)
    requires NoDup(s) && x !in s
    ensures NoDup(s + [x])
  {
  }

  lemma NoDupConcat<T>(a: seq<T>, b: seq<T>)
    requires NoDup(a) && NoDup(b) && forall x :: x in b ==> x !in a
    ensures NoDup(a + b)
  {
    forall i, j | 0 <= i < j < |a + b| ensures (a + b)[i] != (a + b)[j] {
      if i < |a| <= j { assert b[j - |a|] in b && a[i] in a; }
    }
  }

  /** The numbers below `n`. */
  function Upto(n: nat): (r: seq<nat>)
    ensures |r| == n && forall b :: 0 <= b < n ==> r[b] == b
  {
    seq(n, b => b)
  }

  /** Taking the element at `i` out. */
  function Without<T>(s: seq<T>, i: nat): (r: seq<T>)
    requires i < |s|
    ensures |r| == |s| - 1
  {
    s[..i] + s[i + 1..]
  }

  lemma NoDupWithout<T>(s: seq<T>, i: nat)
    requires NoDup(s) && i < |s|
    ensures NoDup(Without(s, i)) && s[i] !in Without(s, i)
    ensures forall x :: x in s <==> x == s[i] || x in Without(s, i)
  {
    var r := Without(s, i);
    forall x | x in s ensures x == s[i] || x in r {
      var k :| 0 <= k < |s| && s[k] == x;
      if k < i { assert r[k] == x; }
      if k > i { assert r[k - 1] == x; }
    }
  }

  /** `x` stands before `y`. */
  ghost predicate Before<T>(s: seq<T>, x: T, y: T) {
    exists i, j :: 0 <= i < j < |s| && s[i] == x && s[j] == y
  }

  /** Any two of `left` stand as they stand in `all`. */
  ghost predicate SameOrder<T>(all: seq<T>, left: seq<T>) {
    forall i, j :: 0 <= i < j < |left| ==> Before(all, left[i], left[j])
  }

  lemma OrderKept<T>(s: seq<T>)
    ensures SameOrder(s, s)
  {
  }

  lemma OrderWithout<T>(s: seq<T>, i: nat)
    requires i < |s|
    ensures SameOrder(s, Without(s, i))
  {
    var r := Without(s, i);
    forall a, b | 0 <= a < b < |r| ensures Before(s, r[a], r[b]) {
      var a', b' := if a < i then a else a + 1, if b < i then b else b + 1;
      assert s[a'] == r[a] && s[b'] == r[b];
    }
  }

  lemma OrderPrefix<T>(a: seq<T>, left: seq<T>, b: seq<T>)
    requires SameOrder(a, left)
    ensures SameOrder(a + b, left)
  {
    forall i, j | 0 <= i < j < |left| ensures Before(a + b, left[i], left[j]) {
      var k, m :| 0 <= k < m < |a| && a[k] == left[i] && a[m] == left[j];
      assert (a + b)[k] == left[i] && (a + b)[m] == left[j];
    }
  }

  lemma OrderTransitive<T>(a: seq<T>, b: seq<T>, c: seq<T>)
    requires SameOrder(a, b) && SameOrder(b, c)
    ensures SameOrder(a, c)
  {
  }

  lemma OrderJoined<T>(a: seq<T>, left: seq<T>, b: seq<T>)
    requires SameOrder(a, left) && forall x :: x in left ==> x in a
    ensures SameOrder(a + b, left + b)
  {
    forall i, j | 0 <= i < j < |left + b| ensures Before(a + b, (left + b)[i], (left + b)[j]) {
      var x, y := (left + b)[i], (left + b)[j];
      if j < |left| {
        var k, m :| 0 <= k < m < |a| && a[k] == x && a[m] == y;
        assert (a + b)[k] == x && (a + b)[m] == y;
      } else {
        var m := |a| + j - |left|;
        assert (a + b)[m] == y;
        if i < |left| {
          assert x in left;
          var k :| 0 <= k < |a| && a[k] == x;
          assert (a + b)[k] == x;
        } else {
          assert (a + b)[|a| + i - |left|] == x;
        }
      }
    }
  }

  lemma NotBoth<T>(s: seq<T>, x: T, y: T)
    requires NoDup(s) && Before(s, x, y)
    ensures !Before(s, y, x)
  {
  }

  lemma SameLast<T>(all: seq<T>, a: seq<T>, b: seq<T>)
    requires NoDup(all) && SameOrder(all, a) && SameOrder(all, b) && a != [] && b != []
    requires Last(b) in a && Last(a) in b
    ensures Last(a) == Last(b)
  {
    var i :| 0 <= i < |a| && a[i] == Last(b);
    var j :| 0 <= j < |b| && b[j] == Last(a);
    assert i < |a| - 1 ==> Before(all, Last(b), Last(a));
    assert j < |b| - 1 ==> Before(all, Last(a), Last(b));
    if i < |a| - 1 { NotBoth(all, Last(b), Last(a)); }
  }

  /** A list without repetitions, its order and who is left fix what is left of it. */
  lemma {:induction false} OrderFixes<T>(all: seq<T>, a: seq<T>, b: seq<T>)
    requires NoDup(all) && SameOrder(all, a) && SameOrder(all, b) && forall x :: x in a <==> x in b
    ensures a == b
    decreases |a|
  {
    hide NoDup, SameOrder;
    assert b != [] ==> b[0] in a;
    if a != [] {
      assert Last(a) in b && Last(b) in a;
      SameLast(all, a, b);
      LastOnce(all, a);
      LastOnce(all, b);
      OrderFixes(all, Init(a), Init(b));
      assert a == Init(a) + [Last(a)] && b == Init(b) + [Last(b)];
    }
  }

  lemma LastOnce<T>(all: seq<T>, a: seq<T>)
    requires NoDup(all) && SameOrder(all, a) && a != []
    ensures SameOrder(all, Init(a))
    ensures forall x :: x in Init(a) <==> x in a && x != Last(a)
  {
    forall x ensures x in Init(a) <==> x in a && x != Last(a) {
      if x in Init(a) {
        var i :| 0 <= i < |a| - 1 && a[i] == x;
        assert Before(all, a[i], a[|a| - 1]);
      }
    }
  }

  function Elements<T(==)>(s: seq<T>): set<T> {
    set x | x in s
  }

  lemma ElementsConcat<T>(s: seq<T>, t: seq<T>)
    ensures Elements(s + t) == Elements(s) + Elements(t)
  {
  }

  lemma ElementsLast<T>(s: seq<T>)
    requires s != []
    ensures Elements(s) == Elements(Init(s)) + {Last(s)}
  {
    assert s == Init(s) + [Last(s)];
  }

  lemma {:induction false} FewElements<T>(s: seq<T>)
    ensures |Elements(s)| <= |s|
  {
    if s != [] {
      FewElements(Init(s));
      ElementsLast(s);
    }
  }

  lemma {:induction false} NoDupCard<T>(s: seq<T>)
    requires NoDup(s)
    ensures |Elements(s)| == |s|
  {
    if s != [] {
      NoDupCard(Init(s));
      ElementsLast(s);
      assert Last(s) !in Init(s);
    }
  }

  lemma {:induction false} SmallKeys(keys: set<nat>, n: nat)
    requires forall b :: b in keys ==> b < n
    ensures |keys| <= n
  {
    if n > 0 {
      var rest := keys - {n - 1};
      SmallKeys(rest, n - 1);
      assert keys <= rest + {n - 1};
      assert |rest + {n - 1}| == |rest| + 1;
      SubsetCard(keys, rest + {n - 1});
    } else {
      assert keys == {};
    }
  }

  lemma {:induction false} SubsetCard(a: set<nat>, c: set<nat>)
    requires a <= c
    ensures |a| <= |c|
  {
    if a != {} {
      var x :| x in a;
      SubsetCard(a - {x}, c - {x});
    }
  }

  lemma CardOfUnion(a: set<nat>, c: set<nat>)
    ensures |a + c| <= |a| + |c|
  {
  }

  lemma {:induction false} AllKeys(keys: set<nat>, n: nat)
    requires forall b :: 0 <= b < n ==> b in keys
    ensures n <= |keys|
  {
    if n > 0 {
      AllKeys(keys - {n - 1}, n - 1);
    }
  }
}
