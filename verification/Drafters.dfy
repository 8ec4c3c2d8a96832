/** The n-gram drafter and the drafting cascade. */
module Drafters {
  import opened Options
  import opened Network

  /** The last `n` tokens also occur at `i`, with at least one token after that occurrence. */
  predicate Earlier(tokens: seq<Token>, n: nat, i: nat) {
    i + n < |tokens| && tokens[i..i + n] == tokens[|tokens| - n..]
  }

  ghost predicate Repeats(tokens: seq<Token>, n: nat) {
    exists i: nat :: Earlier(tokens, n, i)
  }

  /** `n` is the longest repeating suffix length within the bounds and `i` its most recent
      earlier occurrence. */
  ghost predicate BestMatch(tokens: seq<Token>, minN: nat, maxN: nat, n: nat, i: nat) {
    && minN <= n <= maxN && Earlier(tokens, n, i)
    && (forall m :: n < m <= maxN ==> !Repeats(tokens, m))
    && (forall j :: i < j ==> !Earlier(tokens, n, j))
  }

  ghost predicate HasMatch(tokens: seq<Token>, minN: nat, maxN: nat) {
    exists n :: minN <= n <= maxN && Repeats(tokens, n)
  }

  /** The next token after `tokens` could complete a usable match. */
  ghost predicate CouldMatch(tokens: seq<Token>, minN: nat, maxN: nat) {
    exists n, i: nat :: minN <= n <= maxN && Halfway(tokens, n, i)
  }

  /** The last `n - 1` tokens also occur at `i`, with a token after that occurrence. */
  predicate Halfway(tokens: seq<Token>, n: nat, i: nat) {
    n >= 1 && i + (n - 1) < |tokens| && tokens[i..i + (n - 1)] == tokens[|tokens| - (n - 1)..]
  }

  lemma MatchesAreSpecific(tokens: seq<Token>, minN: nat, maxN: nat, n: nat, i: nat, m: nat, j: nat)
    requires BestMatch(tokens, minN, maxN, n, i) && BestMatch(tokens, minN, maxN, m, j)
    ensures n == m && i == j
  {
    assert Repeats(tokens, n) && Repeats(tokens, m);
  }

  /** Appending the token that followed the earlier occurrence turns half a match into one. */
  lemma HalfwayCompletes(tokens: seq<Token>, n: nat, i: nat)
    requires Halfway(tokens, n, i)
    ensures Earlier(tokens + [tokens[i + (n - 1)]], n, i)
  {
    var more := tokens + [tokens[i + (n - 1)]];
    assert more[i..i + n] == tokens[i..i + (n - 1)] + [tokens[i + (n - 1)]];
    assert more[|more| - n..] == tokens[|tokens| - (n - 1)..] + [tokens[i + (n - 1)]];
  }

  lemma MatchIsHalfway(tokens: seq<Token>, x: Token, n: nat, i: nat)
    requires n >= 1 && Earlier(tokens + [x], n, i)
    ensures Halfway(tokens, n, i)
  {
    var more := tokens + [x];
    var here, end := more[i..i + n], more[|more| - n..];
    assert here == end;
    HeadOfSlice(tokens, x, i, n);
    HeadOfSlice(tokens, x, |more| - n, n);
    assert end == more[|more| - n..|more| - n + n];
    assert tokens[|tokens| - (n - 1)..] == tokens[|more| - n..|more| - n + (n - 1)];
  }

  /** All but the last token of a slice lie before the appended token. */
  lemma HeadOfSlice(tokens: seq<Token>, x: Token, i: nat, n: nat)
    requires n >= 1 && i + n <= |tokens| + 1
    ensures (tokens + [x])[i..i + n][..n - 1] == tokens[i..i + (n - 1)]
  {
  }

  /** The gate is exact: it holds if and only if some next token makes a match. */
  lemma ExactGate(tokens: seq<Token>, minN: nat, maxN: nat)
    requires minN >= 1
    ensures CouldMatch(tokens, minN, maxN) <==> exists x :: HasMatch(tokens + [x], minN, maxN)
  {
    if CouldMatch(tokens, minN, maxN) {
      var n, i: nat :| minN <= n <= maxN && Halfway(tokens, n, i);
      HalfwayCompletes(tokens, n, i);
      var x := tokens[i + (n - 1)];
      assert Repeats(tokens + [x], n);
      assert HasMatch(tokens + [x], minN, maxN);
    }
    if x :| HasMatch(tokens + [x], minN, maxN) {
      var n :| minN <= n <= maxN && Repeats(tokens + [x], n);
      var i: nat :| Earlier(tokens + [x], n, i);
      MatchIsHalfway(tokens, x, n, i);
    }
  }

  function Min(a: int, b: int): int {
    if a < b then a else b
  }

  function Max(a: int, b: int): int {
    if a < b then b else a
  }

  /** `r` is what followed the best match, cut to `room` tokens. */
  ghost predicate Proposal(tokens: seq<Token>, minN: nat, maxN: nat, room: int, r: seq<Token>) {
    exists n, i: nat :: BestMatch(tokens, minN, maxN, n, i) && i + n <= |tokens| && room > 0
                        && r == tokens[i + n..Min(i + n + room, |tokens|)]
  }

  lemma TooLongToRepeat(tokens: seq<Token>, n: int, maxN: nat)
    requires n >= |tokens| - 1 || n >= maxN
    ensures forall m: nat :: n < m <= maxN ==> !Repeats(tokens, m)
  {
  }

  lemma NoneRepeats(tokens: seq<Token>, minN: nat, maxN: nat)
    requires forall m: nat :: minN <= m <= maxN ==> !Repeats(tokens, m)
    ensures !HasMatch(tokens, minN, maxN)
  {
    hide Repeats;
  }

  /** The most recent occurrence of the longest repeating suffix is what is proposed from. */
  lemma Proposes(tokens: seq<Token>, minN: nat, maxN: nat, n: nat, i: nat, room: int)
    requires minN <= n <= maxN && Earlier(tokens, n, i) && room > 0
    requires forall m: nat :: n < m <= maxN ==> !Repeats(tokens, m)
    requires forall j: nat :: i < j ==> !Earlier(tokens, n, j)
    ensures i + n < |tokens| && HasMatch(tokens, minN, maxN)
    ensures Proposal(tokens, minN, maxN, room, tokens[i + n..Min(i + n + room, |tokens|)])
  {
    hide Min;
    assert Repeats(tokens, n) && BestMatch(tokens, minN, maxN, n, i);
  }

  class NgramDrafter {
    const minN: nat
    const maxN: nat
    const maxK: int

    predicate Valid() {
      1 <= minN <= maxN
    }

    constructor (leastN: int, mostN: int, mostK: int)
      ensures Valid() && minN == Max(1, leastN) && maxN == Max(minN, mostN) && maxK == mostK
    {
      minN, maxN, maxK := Max(1, leastN), Max(Max(1, leastN), mostN), mostK;
    }

    /** What followed the most recent earlier occurrence of the longest repeating suffix. */
    method Propose(tokens: seq<Token>, k: int) returns (r: seq<Token>)
      requires Valid()
      ensures r != [] <==> Min(k, maxK) > 0 && HasMatch(tokens, minN, maxN)
      ensures r != [] ==> |r| <= Min(k, maxK)
      ensures r != [] ==> Proposal(tokens, minN, maxN, Min(k, maxK), r)
    {
      var room := Min(k, maxK);
      if room <= 0 { return []; }
      var n := Min(maxN, |tokens| - 1);
      TooLongToRepeat(tokens, n, maxN);
      hide Earlier, Repeats, Proposal, HasMatch;
      while n >= minN
        invariant n <= maxN && n <= |tokens| - 1
        invariant forall m: nat :: n < m <= maxN ==> !Repeats(tokens, m)
      {
        var i := MostRecent(tokens, n);
        if i >= 0 {
          Proposes(tokens, minN, maxN, n, i, room);
          return tokens[i + n..Min(i + n + room, |tokens|)];
        }
        n := n - 1;
      }
      NoneRepeats(tokens, minN, maxN);
      r := [];
    }

    /** The most recent earlier occurrence of the last `n` tokens, or -1. */
    static method MostRecent(tokens: seq<Token>, n: nat) returns (i: int)
      requires n < |tokens|
      ensures -1 <= i && (i >= 0 <==> Repeats(tokens, n))
      ensures i >= 0 ==> Earlier(tokens, n, i) && forall j: nat :: i < j ==> !Earlier(tokens, n, j)
    {
      i := |tokens| - n - 1;
      while i >= 0
        invariant -1 <= i <= |tokens| - n - 1
        invariant forall j: nat :: i < j ==> !Earlier(tokens, n, j)
      {
        if tokens[i..i + n] == tokens[|tokens| - n..] {
          assert Earlier(tokens, n, i);
          return;
        }
        i := i - 1;
      }
    }

    /** Whether some next token could make `Propose` succeed. */
    method CouldMatchAfter(tokens: seq<Token>) returns (r: bool)
      requires Valid()
      ensures r == CouldMatch(tokens, minN, maxN)
      ensures r <==> exists x :: HasMatch(tokens + [x], minN, maxN)
    {
      ExactGate(tokens, minN, maxN);
      var n: nat := minN;
      while n <= Min(maxN, |tokens| + 1)
        invariant forall m, i: nat :: minN <= m < n && m <= maxN ==> !Halfway(tokens, m, i)
      {
        var prefixLen := n - 1;
        for i := 0 to |tokens| - prefixLen
          invariant forall j: nat :: j < i ==> !Halfway(tokens, n, j)
        {
          if tokens[i..i + prefixLen] == tokens[|tokens| - prefixLen..] {
            assert Halfway(tokens, n, i);
            return true;
          }
        }
        n := n + 1;
      }
      r := false;
    }
  }

  /** Grammar, then n-gram, then the learned head: the first tier with a proposal wins. A head
      that drafts one token keeps the whole cascade within the draft budget. */
  method CascadeDraft(ngram: Option<NgramDrafter>, fallback: Option<seq<Token>>, tokens: seq<Token>, k: int,
                      grammar: Option<seq<Token>>) returns (r: seq<Token>)
    requires ngram.Some? ==> ngram.value.Valid()
    ensures
      var forced := if grammar.Some? && tokens != [] then grammar.value else [];
      var lookup := ngram.Some? && Min(k, ngram.value.maxK) > 0 && HasMatch(tokens, ngram.value.minN, ngram.value.maxN);
      if forced != [] then r == forced
      else if lookup then Proposal(tokens, ngram.value.minN, ngram.value.maxN, Min(k, ngram.value.maxK), r)
      else r == if fallback.Some? then fallback.value else []
    ensures k >= 1 && (grammar.Some? ==> |grammar.value| <= k) && (fallback.Some? ==> |fallback.value| <= 1) ==> |r| <= k
  {
    if grammar.Some? && tokens != [] {
      if grammar.value != [] { return grammar.value; }
    }
    if ngram.Some? {
      r := ngram.value.Propose(tokens, k);
      if r != [] { return; }
    }
    r := if fallback.Some? then fallback.value else [];
  }
}
