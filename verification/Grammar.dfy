/** Constrained decoding: a grammar matcher with undo, the processor that drives it, and a
    speculative step over a constrained row. */
module Grammar {
  import opened Options
  import opened Network
  import opened Bitmask

  /** None is minus infinity. */
  type Score = Option<int>
  type Scores = seq<Score>

  /** A compiled grammar over tokens `0..vocab`, as a deterministic automaton whose state is
      what it has accepted: which token may come next, whether it is complete, and the tokens
      of the string it forces next. */
  datatype Grammar = Grammar(
    vocab: nat, legal: (seq<Token>, Token) -> bool, over: seq<Token> -> bool, jump: seq<Token> -> seq<Token>)

  predicate Accepts(g: Grammar, h: seq<Token>, t: Token) {
    !g.over(h) && 0 <= t < g.vocab && g.legal(h, t)
  }

  /** One token offered to the matcher: a rejected one leaves it as it was. */
  function Step(g: Grammar, h: seq<Token>, t: Token): seq<Token> {
    if Accepts(g, h, t) then h + [t] else h
  }

  function Walk(g: Grammar, h: seq<Token>, toks: seq<Token>): seq<Token> {
    if toks == [] then h else Step(g, Walk(g, h, Init(toks)), Last(toks))
  }

  lemma {:induction false} WalkSplit(g: Grammar, h: seq<Token>, a: seq<Token>, b: seq<Token>)
    ensures Walk(g, h, a + b) == Walk(g, Walk(g, h, a), b)
  {
    if b == [] {
      assert a + b == a;
    } else {
      WalkSplit(g, h, a, Init(b));
      assert Init(a + b) == a + Init(b);
    }
  }

  lemma WalkMore(g: Grammar, h: seq<Token>, toks: seq<Token>, t: Token)
    ensures Walk(g, h, toks + [t]) == Step(g, Walk(g, h, toks), t)
  {
    assert Init(toks + [t]) == toks && Last(toks + [t]) == t;
  }

  lemma WalkNone(g: Grammar, h: seq<Token>, ids: seq<Token>, from: nat)
    requires from <= |ids|
    ensures Walk(g, h, ids[from..from]) == h
  {
  }

  lemma WalkAt(g: Grammar, h: seq<Token>, ids: seq<Token>, from: nat, i: nat)
    requires from <= i < |ids|
    ensures Walk(g, h, ids[from..i + 1]) == Step(g, Walk(g, h, ids[from..i]), ids[i])
  {
    WalkMore(g, h, ids[from..i], ids[i]);
    assert ids[from..i + 1] == ids[from..i] + [ids[i]];
  }

  /** Showing the tokens past `prompt + gen` completes the walk over everything generated. */
  lemma SyncedSplit(g: Grammar, prompt: seq<Token>, gen: seq<Token>, ids: seq<Token>)
    requires prompt + gen <= ids
    ensures Walk(g, Walk(g, [], gen), ids[|prompt| + |gen|..]) == Walk(g, [], ids[|prompt|..])
  {
    var more := ids[|prompt| + |gen|..];
    assert (prompt + gen)[|prompt|..] == gen;
    assert ids[|prompt|..] == gen + more;
    WalkSplit(g, [], gen, more);
  }

  lemma {:induction false} WalkOver(g: Grammar, h: seq<Token>, toks: seq<Token>)
    requires g.over(h)
    ensures Walk(g, h, toks) == h
  {
    if toks != [] { WalkOver(g, h, Init(toks)); }
  }

  // ---- masking -------------------------------------------------------------------

  /** Illegal tokens get minus infinity; a complete grammar masks nothing. */
  function Masked(g: Grammar, h: seq<Token>, row: Scores): (r: Scores)
    ensures |r| == |row|
  {
    if g.over(h) then row
    else seq(|row|, t requires 0 <= t < |row| => if Accepts(g, h, t) then row[t] else None)
  }

  predicate Above(a: Score, b: Score) {
    a.Some? && (b.None? || a.value > b.value)
  }

  /** The first index of the highest score. */
  function Argmax(row: Scores): (r: nat)
    requires row != []
    ensures r < |row|
    ensures forall j :: 0 <= j < |row| ==> !Above(row[j], row[r])
    ensures forall j :: 0 <= j < r ==> Above(row[r], row[j]) || row[j] == None
  {
    if |row| == 1 then 0
    else
      var r := Argmax(Init(row));
      assert forall j :: 0 <= j < |row| - 1 ==> row[j] == Init(row)[j];
      if Above(Last(row), row[r]) then |row| - 1 else r
  }

  /** The network's scores after a history: finite, one per token. */
  ghost predicate ScoresOk(g: Grammar, scores: seq<Token> -> Scores) {
    && g.vocab > 0
    && forall h :: |scores(h)| == g.vocab && forall t :: 0 <= t < g.vocab ==> scores(h)[t].Some?
  }

  /** A grammar that is not complete always allows some token. */
  ghost predicate AlwaysOpen(g: Grammar) {
    forall h :: !g.over(h) ==> exists t :: Accepts(g, h, t)
  }

  /** Only the stop token completes the grammar, and the stop token is EOS. */
  ghost predicate StopsAtEos(g: Grammar, eos: Option<Token>) {
    forall h :: g.over(h) ==> h != [] && eos == Some(Last(h))
  }

  /** Mask, then take the best. */
  function Pick(g: Grammar, h: seq<Token>, row: Scores): Token
    requires row != []
  {
    Argmax(Masked(g, h, row))
  }

  lemma PickAccepted(g: Grammar, h: seq<Token>, row: Scores)
    requires AlwaysOpen(g) && !g.over(h) && |row| == g.vocab > 0
    requires forall t :: 0 <= t < |row| ==> row[t].Some?
    ensures Accepts(g, h, Pick(g, h, row))
  {
    var t :| Accepts(g, h, t);
    assert Masked(g, h, row)[t] == row[t];
  }

  /** Grammar-constrained greedy decoding: the token after `gen`. */
  function MaskedNext(g: Grammar, scores: seq<Token> -> Scores, prompt: seq<Token>, gen: seq<Token>): Token
    requires scores(prompt + gen) != []
  {
    Pick(g, Walk(g, [], gen), scores(prompt + gen))
  }

  // ---- the processor -------------------------------------------------------------

  const MAX_ROLLBACK := 64

  class GrammarLogitsProcessor {
    const g: Grammar
    const tokenizer: bool
    var accepted: seq<Token>
    var seen: Option<nat>

    constructor (g: Grammar, tokenizer: bool)
      ensures this.g == g && this.tokenizer == tokenizer && accepted == [] && seen == None
    {
      this.g, this.tokenizer := g, tokenizer;
      accepted, seen := [], None;
    }

    /** The matcher has been shown exactly the generated tokens, and nothing is owed to it. */
    predicate InSync(prompt: seq<Token>, gen: seq<Token>)
      reads this
    {
      seen == Some(|prompt| + |gen|) && accepted == Walk(g, [], gen)
    }

    method Advance(t: Token) returns (ok: bool)
      modifies this`accepted
      ensures ok == Accepts(g, old(accepted), t) && accepted == Step(g, old(accepted), t)
    {
      ok := Accepts(g, accepted, t);
      if ok { accepted := accepted + [t]; }
    }

    /** Undo the last `n` accepted tokens; false is the matcher's error for undoing more than
        it has or keeps. */
    method Rewind(n: nat) returns (ok: bool)
      modifies this`accepted
      ensures ok <==> n == 0 || (n <= |old(accepted)| && n <= MAX_ROLLBACK)
      ensures accepted == if ok && n > 0 then old(accepted)[..|old(accepted)| - n] else old(accepted)
    {
      if n == 0 { return true; }
      ok := n <= |accepted| && n <= MAX_ROLLBACK;
      if ok { accepted := accepted[..|accepted| - n]; }
    }

    method MarkCommitted(n: nat)
      modifies this`seen
      ensures seen == Some(n)
    {
      seen := Some(n);
    }

    /** Show the matcher every token past the watermark. The first call only anchors it. */
    method Sync(ids: seq<Token>, ghost prompt: seq<Token>, ghost gen: seq<Token>)
      modifies this
      ensures seen == Some(|ids|)
      ensures old(seen).None? ==> accepted == old(accepted)
      ensures old(seen).Some? && old(seen).value <= |ids| ==> accepted == Walk(g, old(accepted), ids[old(seen).value..])
      ensures old(InSync(prompt, gen)) && prompt + gen <= ids ==> InSync(prompt, ids[|prompt|..])
    {
      hide Walk, Accepts, Step;
      if seen.None? {
        seen := Some(|ids|);
        return;
      }
      ghost var h := accepted;
      var from := if seen.value <= |ids| then seen.value else |ids|;
      WalkNone(g, h, ids, from);
      for i := from to |ids|
        invariant accepted == Walk(g, h, ids[from..i]) && seen == old(seen)
      {
        WalkAt(g, h, ids, from, i);
        var ok := Advance(ids[i]);
      }
      assert ids[from..|ids|] == ids[from..];
      seen := Some(|ids|);
      if old(InSync(prompt, gen)) && prompt + gen <= ids { SyncedSplit(g, prompt, gen, ids); }
    }

    /** The sampler hook: catch up with the history, then mask the scores. */
    method Call(ids: seq<Token>, row: Scores, ghost prompt: seq<Token>, ghost gen: seq<Token>) returns (r: Scores)
      modifies this
      ensures seen == Some(|ids|) && r == Masked(g, accepted, row)
      ensures old(seen).None? ==> accepted == old(accepted)
      ensures old(InSync(prompt, gen)) && prompt + gen <= ids ==> InSync(prompt, ids[|prompt|..])
    {
      hide Masked, Walk;
      Sync(ids, prompt, gen);
      r := Masked(g, accepted, row);
    }

    /** Mask one row of scores in place. */
    method MaskRow(row: array<Score>)
      modifies row
      ensures row[..] == Masked(g, accepted, old(row[..]))
    {
      if g.over(accepted) { return; }
      for t := 0 to row.Length
        invariant forall j :: 0 <= j < t ==> row[j] == if Accepts(g, accepted, j) then old(row[j]) else None
        invariant forall j :: t <= j < row.Length ==> row[j] == old(row[j])
      {
        if !Accepts(g, accepted, t) { row[t] := None; }
      }
    }

    /** Fill the packed mask for the current position. */
    method FillMask() returns (words: seq<bv32>)
      requires !g.over(accepted)
      ensures forall t: nat :: Allowed(words, t) <==> Accepts(g, accepted, t)
    {
      hide Allowed, Set;
      words := seq((g.vocab + 31) / 32, _ => 0);
      NothingAllowed(words);
      for t := 0 to g.vocab
        invariant |words| == (g.vocab + 31) / 32
        invariant forall u: nat :: Allowed(words, u) <==> u < t && Accepts(g, accepted, u)
      {
        if Accepts(g, accepted, t) {
          forall u: nat ensures Allowed(Set(words, t), u) <==> u == t || Allowed(words, u) { SetAllows(words, t, u); }
          SetLength(words, t);
          words := Set(words, t);
        }
      }
    }

    /** The one token that may come next, if there is exactly one. */
    method NextSingleton() returns (r: Option<Token>)
      ensures r.Some? <==> exists t: nat :: Forced(g, accepted, t)
      ensures r.Some? ==> Forced(g, accepted, r.value)
    {
      hide Allowed;
      if g.over(accepted) { return None; }
      var words := FillMask();
      ForcedBit(g, accepted, words);
      var bit := SingleSetBit(words);
      r := if bit.Some? then Some(bit.value) else None;
    }

    /** Up to `k` tokens the grammar forces from here on, all accepted: forced tokens, and with a
        tokenizer what the grammar takes of a forced string where no token is forced. It ends
        early only where neither goes on. */
    method ForcedRun(k: nat) returns (out: seq<Token>)
      modifies this`accepted
      ensures |out| <= k && accepted == old(accepted) + out
      ensures forall i :: 0 <= i < |out| ==> Accepts(g, old(accepted) + out[..i], out[i])
      ensures !tokenizer ==> forall i :: 0 <= i < |out| ==> Forced(g, old(accepted) + out[..i], out[i])
      ensures Pieces(g, tokenizer, old(accepted), out, k) && (|out| < k ==> Stuck(g, tokenizer, accepted))
    {
      hide Accepts, Forced, Pieces, JumpPiece, Stuck;
      out := [];
      NoPieces(g, tokenizer, accepted, k);
      while |out| < k
        invariant |out| <= k && accepted == old(accepted) + out
        invariant forall i :: 0 <= i < |out| ==> Accepts(g, old(accepted) + out[..i], out[i])
        invariant !tokenizer ==> forall i :: 0 <= i < |out| ==> Forced(g, old(accepted) + out[..i], out[i])
        invariant Pieces(g, tokenizer, old(accepted), out, k)
        decreases k - |out|
      {
        ghost var here := accepted;
        var forced := NextSingleton();
        if forced.Some? {
          ForcedAccepts(g, accepted, forced.value);
          var ok := Advance(forced.value);
          Longer(out, forced.value);
          PieceAdded(g, tokenizer, old(accepted), out, [forced.value], k);
          out := out + [forced.value];
        } else {
          NoneForced(g, accepted);
          if !tokenizer || g.over(accepted) {
            StuckHere(g, tokenizer, accepted);
            break;
          }
          var s := g.jump(accepted);
          var more := JumpRun(s, k - |out|);
          if more == [] {
            assert accepted == here;
            StuckHere(g, tokenizer, accepted);
            break;
          }
          Appended(g, old(accepted), out, more);
          PieceAdded(g, tokenizer, old(accepted), out, more, k);
          out := out + more;
        }
      }
    }

    /** Accept the tokens of a forced string while the grammar takes them. */
    method JumpRun(s: seq<Token>, k: nat) returns (out: seq<Token>)
      modifies this`accepted
      ensures accepted == old(accepted) + out && JumpPiece(g, old(accepted), s, out, k)
      ensures forall i :: 0 <= i < |out| ==> Accepts(g, old(accepted) + out[..i], out[i])
    {
      out := [];
      for i := 0 to |s|
        invariant out == s[..i] && |out| <= k && accepted == old(accepted) + out
        invariant forall i :: 0 <= i < |out| ==> Accepts(g, old(accepted) + out[..i], out[i])
      {
        if |out| >= k { break; }
        var ok := Advance(s[i]);
        if !ok { break; }
        Longer(out, s[i]);
        out := out + [s[i]];
      }
    }
  }

  /** As much of the string `s` as the grammar takes, up to `room` tokens. */
  ghost predicate JumpPiece(g: Grammar, h: seq<Token>, s: seq<Token>, piece: seq<Token>, room: nat) {
    && piece <= s && |piece| <= room
    && (forall i :: 0 <= i < |piece| ==> Accepts(g, h + piece[..i], piece[i]))
    && (|piece| < room && |piece| < |s| ==> !Accepts(g, h + piece, s[|piece|]))
  }

  /** One piece of a forced run: a forced token, or where none is forced a forced string's tokens. */
  ghost predicate PieceOk(g: Grammar, tokenizer: bool, h: seq<Token>, piece: seq<Token>, room: nat) {
    || (|piece| == 1 && Forced(g, h, piece[0]))
    || (tokenizer && piece != [] && (forall t :: !Forced(g, h, t)) && JumpPiece(g, h, g.jump(h), piece, room))
  }

  /** A forced run of at most `k` tokens is made of such pieces. */
  ghost predicate Pieces(g: Grammar, tokenizer: bool, h: seq<Token>, out: seq<Token>, k: nat)
    decreases |out|
  {
    out == []
    || exists cut :: 0 <= cut < |out| && PieceAt(g, tokenizer, h, out, cut, k) && Pieces(g, tokenizer, h, out[..cut], k)
  }

  ghost predicate PieceAt(g: Grammar, tokenizer: bool, h: seq<Token>, out: seq<Token>, cut: nat, k: nat) {
    cut <= |out| && cut <= k && PieceOk(g, tokenizer, h + out[..cut], out[cut..], k - cut)
  }

  /** Nothing is forced here. */
  ghost predicate Stuck(g: Grammar, tokenizer: bool, h: seq<Token>) {
    && (forall t :: !Forced(g, h, t))
    && (tokenizer && g.jump(h) != [] ==> !Accepts(g, h, g.jump(h)[0]))
  }

  lemma NoPieces(g: Grammar, tokenizer: bool, h: seq<Token>, k: nat)
    ensures Pieces(g, tokenizer, h, [], k)
  {
  }

  lemma NoneForced(g: Grammar, h: seq<Token>)
    requires forall t: nat :: !Forced(g, h, t)
    ensures forall t :: !Forced(g, h, t)
  {
    forall t ensures !Forced(g, h, t) {
      assert t >= 0 ==> !Forced(g, h, t as nat);
    }
  }

  lemma ForcedAccepts(g: Grammar, h: seq<Token>, t: Token)
    requires Forced(g, h, t)
    ensures Accepts(g, h, t)
  {
  }

  lemma PieceAdded(g: Grammar, tokenizer: bool, h: seq<Token>, out: seq<Token>, piece: seq<Token>, k: nat)
    requires |out| <= k && Pieces(g, tokenizer, h, out, k) && piece != []
    requires PieceOk(g, tokenizer, h + out, piece, k - |out|)
    ensures Pieces(g, tokenizer, h, out + piece, k)
  {
    hide PieceOk;
    var all := out + piece;
    assert all[..|out|] == out && all[|out|..] == piece;
    assert PieceAt(g, tokenizer, h, all, |out|, k);
  }

  /** A complete grammar takes nothing, and without a forced token only a forced string helps. */
  lemma StuckHere(g: Grammar, tokenizer: bool, h: seq<Token>)
    requires forall t :: !Forced(g, h, t)
    requires !tokenizer || g.over(h) || exists room: nat :: room > 0 && JumpPiece(g, h, g.jump(h), [], room)
    ensures Stuck(g, tokenizer, h)
  {
    assert h + [] == h;
  }

  lemma Longer(out: seq<Token>, t: Token)
    ensures forall i :: 0 <= i < |out| ==> (out + [t])[..i] == out[..i]
    ensures (out + [t])[..|out|] == out
  {
  }

  lemma Appended(g: Grammar, h: seq<Token>, out: seq<Token>, more: seq<Token>)
    requires forall i :: 0 <= i < |out| ==> Accepts(g, h + out[..i], out[i])
    requires forall i :: 0 <= i < |more| ==> Accepts(g, h + out + more[..i], more[i])
    ensures forall i :: 0 <= i < |out + more| ==> Accepts(g, h + (out + more)[..i], (out + more)[i])
  {
    forall i | 0 <= i < |out + more| ensures Accepts(g, h + (out + more)[..i], (out + more)[i]) {
      if i < |out| {
        assert (out + more)[..i] == out[..i];
      } else {
        assert h + (out + more)[..i] == h + out + more[..i - |out|];
      }
    }
  }

  /** `t` is the only token the grammar takes. */
  ghost predicate Forced(g: Grammar, h: seq<Token>, t: Token) {
    Accepts(g, h, t) && forall u :: Accepts(g, h, u) ==> u == t
  }

  /** The mask allows one token exactly when the grammar forces it. */
  lemma ForcedBit(g: Grammar, h: seq<Token>, words: seq<bv32>)
    requires forall t: nat :: Allowed(words, t) <==> Accepts(g, h, t)
    ensures forall t: nat :: Forced(g, h, t) <==> Allowed(words, t) && forall u: nat :: Allowed(words, u) ==> u == t
  {
    hide Allowed;
    forall t: nat ensures Forced(g, h, t) <==> Allowed(words, t) && forall u: nat :: Allowed(words, u) ==> u == t {
      if Allowed(words, t) && forall u: nat :: Allowed(words, u) ==> u == t {
        forall u | Accepts(g, h, u) ensures u == t { assert Allowed(words, u); }
      }
    }
  }

  lemma NothingAllowed(words: seq<bv32>)
    requires forall i :: 0 <= i < |words| ==> words[i] == 0
    ensures forall t: nat :: !Allowed(words, t)
  {
  }

  lemma SetLength(words: seq<bv32>, t: nat)
    requires t / 32 < |words|
    ensures |Set(words, t)| == |words|
  {
  }

  /** A walk leaves the matcher where it was exactly when it refuses every single token there. */
  lemma WalkStays(g: Grammar, h: seq<Token>, toks: seq<Token>)
    ensures Walk(g, h, toks) == h <==> forall i :: 0 <= i < |toks| ==> !Accepts(g, h, toks[i])
  {
    if forall i :: 0 <= i < |toks| ==> !Accepts(g, h, toks[i]) {
      AllRejected(g, h, toks);
    } else {
      var i :| 0 <= i < |toks| && Accepts(g, h, toks[i]);
      SomeAccepted(g, h, toks, i);
    }
  }

  lemma {:induction false} AllRejected(g: Grammar, h: seq<Token>, toks: seq<Token>)
    requires forall i :: 0 <= i < |toks| ==> !Accepts(g, h, toks[i])
    ensures Walk(g, h, toks) == h
  {
    if toks != [] { AllRejected(g, h, Init(toks)); }
  }

  lemma {:induction false} WalkGrows(g: Grammar, h: seq<Token>, toks: seq<Token>)
    ensures h <= Walk(g, h, toks)
  {
    if toks != [] { WalkGrows(g, h, Init(toks)); }
  }

  lemma {:induction false} SomeAccepted(g: Grammar, h: seq<Token>, toks: seq<Token>, i: nat)
    requires i < |toks| && Accepts(g, h, toks[i])
    ensures |Walk(g, h, toks)| > |h|
  {
    WalkGrows(g, h, Init(toks));
    if i < |toks| - 1 {
      SomeAccepted(g, h, Init(toks), i);
    } else if Walk(g, h, Init(toks)) != h {
      assert |Walk(g, h, Init(toks))| > |h|;
    }
  }

  /** Anchoring late loses what was generated before: exact only if the matcher would have
      rejected all of it. */
  lemma AnchorExact(g: Grammar, gen: seq<Token>)
    ensures Walk(g, [], gen) == [] <==> forall i :: 0 <= i < |gen| ==> !Accepts(g, [], gen[i])
  {
    WalkStays(g, [], gen);
  }

  // ---- a preempted row -------------------------------------------------------------

  /** Preemption moves the outputs into the prompt and keeps them, so the history a matcher is
      shown afterwards has them twice. It is where it should be exactly when it refuses each of
      them in the state they lead to. */
  lemma RefedExact(g: Grammar, gen: seq<Token>)
    ensures Walk(g, [], gen + gen) == Walk(g, [], gen)
       <==> forall i :: 0 <= i < |gen| ==> !Accepts(g, Walk(g, [], gen), gen[i])
  {
    WalkSplit(g, [], gen, gen);
    WalkStays(g, Walk(g, [], gen), gen);
  }

  /** A grammar that takes any token below `vocab`, for ever. */
  function Anything(vocab: nat): Grammar {
    Grammar(vocab, (h, t) => true, h => false, h => [])
  }

  lemma {:induction false} AnythingWalks(vocab: nat, toks: seq<Token>)
    requires forall i :: 0 <= i < |toks| ==> 0 <= toks[i] < vocab
    ensures Walk(Anything(vocab), [], toks) == toks
  {
    if toks != [] {
      AnythingWalks(vocab, Init(toks));
      assert toks == Init(toks) + [Last(toks)];
    }
  }

  /** Under every grammar that is so only if nothing had been generated before the preemption. */
  lemma RefedAlways(gen: seq<Token>, vocab: nat)
    requires forall i :: 0 <= i < |gen| ==> 0 <= gen[i] < vocab
    ensures gen == [] <==> forall g: Grammar :: Walk(g, [], gen + gen) == Walk(g, [], gen)
  {
    if gen == [] {
      assert gen + gen == gen;
    } else {
      AnythingWalks(vocab, gen + gen);
      AnythingWalks(vocab, gen);
      assert |gen + gen| != |gen|;
    }
  }

  /** The grammar of the one string `1 1 2`. */
  function OneOneTwo(): Grammar {
    Grammar(3, (h, t) => if |h| < 2 then t == 1 else t == 2, h => |h| >= 3, h => [])
  }

  /** A row of that grammar preempted after its first token: the matcher is shown `1` twice, and
      the token it forces next is `2` instead of `1`. */
  lemma RefedSkips()
    ensures Forced(OneOneTwo(), Walk(OneOneTwo(), [], [1]), 1)
    ensures Forced(OneOneTwo(), Walk(OneOneTwo(), [], [1] + [1]), 2)
  {
    var g := OneOneTwo();
    assert Init([1]) == [] && [] + [1] == [1];
    assert Walk(g, [], [1]) == [1];
    WalkMore(g, [], [1], 1);
    assert [1] + [1] == [1, 1];
  }
}
