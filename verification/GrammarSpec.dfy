/** Speculation over a constrained row: the grammar drafter, the verify walk, and the whole
    step, which emits what mask-then-argmax decoding would emit. */
module GrammarSpec {
  import opened Options
  import opened Network
  import opened Greedy
  import opened Sequences
  import opened EngineRows
  import opened Grammar
  import opened Drafters

  class GrammarDrafter {
    const view: GrammarLogitsProcessor
    const maxK: int

    constructor (view: GrammarLogitsProcessor, maxK: int)
      ensures this.view == view && this.maxK == maxK
    {
      this.view, this.maxK := view, maxK;
    }

    /** Walk the grammar over the base token and what it forces after it, then undo the walk. The
        proposal is shorter than the room only where nothing more is forced. None is the matcher's
        error for undoing more steps than it keeps. */
    method Propose(base: Token, k: int) returns (r: Option<seq<Token>>)
      modifies view`accepted
      ensures r.Some? ==> view.accepted == old(view.accepted)
      ensures Min(k, maxK) < MAX_ROLLBACK ==> r.Some?
      ensures r.None? ==> Accepts(view.g, old(view.accepted), base) && exists out ::
        Pieces(view.g, view.tokenizer, old(view.accepted) + [base], out, Min(k, maxK)) && |out| >= MAX_ROLLBACK
      ensures r.Some? && r.value != [] ==>
        && |r.value| <= Min(k, maxK) && Accepts(view.g, view.accepted, base)
        && forall i :: 0 <= i < |r.value| ==> Accepts(view.g, view.accepted + [base] + r.value[..i], r.value[i])
      ensures r.Some? && Min(k, maxK) > 0 && !view.tokenizer && Accepts(view.g, view.accepted, base) ==>
        forall i :: 0 <= i < |r.value| ==> Forced(view.g, view.accepted + [base] + r.value[..i], r.value[i])
      ensures r.Some? && Min(k, maxK) > 0 && Accepts(view.g, view.accepted, base) ==>
        && Pieces(view.g, view.tokenizer, view.accepted + [base], r.value, Min(k, maxK))
        && (|r.value| < Min(k, maxK) ==> Stuck(view.g, view.tokenizer, view.accepted + [base] + r.value))
    {
      var room := Min(k, maxK);
      if room <= 0 { return Some([]); }
      var took := view.Advance(base);
      if !took { return Some([]); }
      var forced := view.ForcedRun(room);
      var ok := view.Rewind(1 + |forced|);
      if !ok { return None; }
      r := Some(forced);
    }
  }

  /** The grammar-masked truth at slot `t` of a verify pass. */
  function MaskedTruth(g: Grammar, h: seq<Token>, ver: seq<Token>, rows: seq<Scores>, t: nat): Token
    requires t < |rows| && t < |ver| && rows[t] != []
  {
    Pick(g, Walk(g, h, ver[..t + 1]), rows[t])
  }

  /** Scores of one row: one per token, none of them masked. */
  predicate Unmasked(g: Grammar, row: Scores) {
    |row| == g.vocab && forall j :: 0 <= j < |row| ==> row[j].Some?
  }

  predicate RowsFit(g: Grammar, rows: seq<Scores>) {
    g.vocab > 0 && forall t :: 0 <= t < |rows| ==> rows[t] != [] && Unmasked(g, rows[t])
  }

  /** What the walk of one row leaves: masked truths up to slot `w`, where it stopped. */
  ghost predicate Walked(g: Grammar, h: seq<Token>, ver: seq<Token>, actual: nat, rows: seq<Scores>,
                         plain: seq<Token>, truth: seq<Token>, eos: Option<Token>, w: nat)
    requires |ver| == |rows| == |plain| && actual < |ver| && forall t :: 0 <= t < |rows| ==> rows[t] != []
  {
    && |truth| == |plain| && w <= actual
    && (forall t :: 0 <= t <= w ==> truth[t] == MaskedTruth(g, h, ver, rows, t))
    && (forall t :: 0 <= t < w ==> ver[t + 1] == truth[t] && eos != Some(truth[t]))
    && (w < actual ==> ver[w + 1] != truth[w] || eos == Some(truth[w]))
    && (forall t :: w < t < |truth| ==> truth[t] == plain[t])
  }

  lemma PickedIs(g: Grammar, h: seq<Token>, ver: seq<Token>, rows: seq<Scores>, t: nat)
    requires t < |rows| && t < |ver| && rows[t] != []
    ensures MaskedTruth(g, h, ver, rows, t) == Pick(g, Walk(g, h, ver[..t + 1]), rows[t])
  {
  }

  /** The draft after slot `t` is its masked truth and no EOS. */
  predicate Matches(g: Grammar, h: seq<Token>, ver: seq<Token>, rows: seq<Scores>, eos: Option<Token>, t: nat)
    requires |ver| == |rows| && forall s :: 0 <= s < |rows| ==> rows[s] != []
  {
    t + 1 < |ver| && ver[t + 1] == MaskedTruth(g, h, ver, rows, t) && eos != Some(ver[t + 1])
  }

  /** How many drafts from slot `t` on are their masked truths, stopping at an EOS. */
  function Matching(g: Grammar, h: seq<Token>, ver: seq<Token>, actual: nat, rows: seq<Scores>, eos: Option<Token>,
                    t: nat): (n: nat)
    requires |ver| == |rows| && t <= actual < |ver| && forall s :: 0 <= s < |rows| ==> rows[s] != []
    ensures t + n <= actual
    decreases actual - t
  {
    if t < actual && Matches(g, h, ver, rows, eos, t) then 1 + Matching(g, h, ver, actual, rows, eos, t + 1) else 0
  }

  /** Slot `w` is where the matching stops. */
  lemma {:induction false} StopsAtMatching(g: Grammar, h: seq<Token>, ver: seq<Token>, actual: nat, rows: seq<Scores>,
                                           eos: Option<Token>, t: nat, w: nat)
    requires |ver| == |rows| && t <= w <= actual < |ver| && forall s :: 0 <= s < |rows| ==> rows[s] != []
    requires forall s :: t <= s < w ==> Matches(g, h, ver, rows, eos, s)
    requires w < actual ==> !Matches(g, h, ver, rows, eos, w)
    ensures t + Matching(g, h, ver, actual, rows, eos, t) == w
    decreases w - t
  {
    hide Matches;
    if t < w { StopsAtMatching(g, h, ver, actual, rows, eos, t + 1, w); }
  }

  lemma WalkedMatches(g: Grammar, h: seq<Token>, ver: seq<Token>, actual: nat, rows: seq<Scores>, plain: seq<Token>,
                      truth: seq<Token>, eos: Option<Token>, w: nat)
    requires |ver| == |rows| == |plain| && actual < |ver| && forall t :: 0 <= t < |rows| ==> rows[t] != []
    requires Walked(g, h, ver, actual, rows, plain, truth, eos, w)
    ensures w == Matching(g, h, ver, actual, rows, eos, 0)
  {
    hide MaskedTruth, Matching;
    forall s | 0 <= s < w ensures Matches(g, h, ver, rows, eos, s) {
      assert truth[s] == MaskedTruth(g, h, ver, rows, s);
    }
    assert truth[w] == MaskedTruth(g, h, ver, rows, w);
    StopsAtMatching(g, h, ver, actual, rows, eos, 0, w);
  }

  lemma OverRefuses(g: Grammar, h: seq<Token>, t: Token)
    requires g.over(h)
    ensures !Accepts(g, h, t)
  {
  }

  lemma WalkNothing(g: Grammar, h: seq<Token>, ver: seq<Token>)
    ensures Walk(g, h, ver[..0]) == h
  {
  }

  lemma WalkFirst(g: Grammar, h: seq<Token>, ver: seq<Token>)
    requires ver != []
    ensures Walk(g, h, ver[..1]) == Step(g, h, ver[0])
  {
    assert ver[..1] == [ver[0]] && Init([ver[0]]) == [];
  }

  lemma WalkNext(g: Grammar, h: seq<Token>, ver: seq<Token>, t: nat)
    requires t < |ver|
    ensures Walk(g, h, ver[..t + 1]) == Step(g, Walk(g, h, ver[..t]), ver[t])
  {
    assert Init(ver[..t + 1]) == ver[..t];
  }

  /** The grammar is not complete after the tokens of slots `0..t`. */
  predicate OpenAt(g: Grammar, h: seq<Token>, ver: seq<Token>, t: nat) {
    t < |ver| && !g.over(Walk(g, h, ver[..t + 1]))
  }

  /** The walk along the drafts, once the base token is in: `acc` steps are counted in all. */
  method WalkDrafts(view: GrammarLogitsProcessor, ghost h: seq<Token>, ver: seq<Token>, actual: nat, rows: seq<Scores>,
                    plain: seq<Token>, eos: Option<Token>)
    returns (truth: seq<Token>, acc: nat)
    requires |ver| == |rows| == |plain| && actual < |ver|
    requires RowsFit(view.g, rows)
    requires AlwaysOpen(view.g) && view.accepted == Walk(view.g, h, ver[..1]) == h + [ver[0]]
    modifies view`accepted
    ensures 1 <= acc <= |ver| && Walked(view.g, h, ver, actual, rows, plain, truth, eos, acc - 1)
    ensures view.accepted == Walk(view.g, h, ver[..acc]) && h <= view.accepted && |view.accepted| <= |h| + acc
    ensures |view.accepted| == |h| + acc <==> forall t :: 0 <= t < acc - 1 ==> OpenAt(view.g, h, ver, t)
  {
    hide Pick, Argmax, Masked, AlwaysOpen, Accepts, Walk, MaskedTruth;
    truth, acc := plain, 1;
    ghost var w := 0;
    var t := 0;
    var going := true;
    while going && t < actual + 1
      invariant t <= actual + 1 && acc <= actual + 1 && |truth| == |plain|
      invariant going ==> acc == t + 1 && t <= actual && view.accepted == Walk(view.g, h, ver[..t + 1])
      invariant !going ==> t > 0 && w == t - 1 && acc == t && view.accepted == Walk(view.g, h, ver[..t])
      invariant forall s :: 0 <= s < t ==> truth[s] == MaskedTruth(view.g, h, ver, rows, s)
      invariant forall s :: 0 <= s < t && (going || s < t - 1) ==> ver[s + 1] == truth[s] && eos != Some(truth[s])
      invariant !going && t - 1 < actual ==> ver[t] != truth[t - 1] || eos == Some(truth[t - 1])
      invariant forall s :: t <= s < |truth| ==> truth[s] == plain[s]
      invariant h <= view.accepted && |view.accepted| <= |h| + acc
      invariant |view.accepted| == |h| + acc <==> forall s :: 0 <= s < acc - 1 ==> OpenAt(view.g, h, ver, s)
    {
      var tt := Pick(view.g, view.accepted, rows[t]);
      PickedIs(view.g, h, ver, rows, t);
      truth := truth[t := tt];
      if t < actual && tt == ver[t + 1] && eos != Some(tt) {
        if OpenAt(view.g, h, ver, t) {
          PickAccepted(view.g, view.accepted, rows[t]);
        } else {
          OverRefuses(view.g, view.accepted, tt);
        }
        var grew := view.Advance(tt);
        WalkNext(view.g, h, ver, t + 1);
        acc := acc + 1;
      } else {
        going := false;
        w := t;
      }
      t := t + 1;
    }
  }

  /** Walk the matcher along the base token and the drafts, replacing each slot's truth by the
      masked one for as long as the drafts keep matching, then undo the walk. Every matching
      draft is counted as a step, taken or refused, so as many steps are undone as drafts match
      and one more: the matcher ends where it was exactly when the grammar was complete before
      none of them and it keeps that many steps. `ok` is false when it refuses to undo so many. */
  method VerifyWalk(view: GrammarLogitsProcessor, ver: seq<Token>, actual: nat, rows: seq<Scores>, plain: seq<Token>,
                    eos: Option<Token>)
    returns (truth: seq<Token>, ok: bool)
    requires |ver| == |rows| == |plain| && actual < |ver|
    requires RowsFit(view.g, rows)
    requires AlwaysOpen(view.g)
    modifies view`accepted
    ensures !Accepts(view.g, old(view.accepted), ver[0]) ==> ok && truth == plain && view.accepted == old(view.accepted)
    ensures Accepts(view.g, old(view.accepted), ver[0]) ==>
      var h := old(view.accepted);
      var w := Matching(view.g, h, ver, actual, rows, eos, 0);
      var end := Walk(view.g, h, ver[..w + 1]);
      && Walked(view.g, h, ver, actual, rows, plain, truth, eos, w)
      && (ok <==> w + 1 <= |end| && w < MAX_ROLLBACK)
      && view.accepted == (if ok then end[..|end| - (w + 1)] else end)
      && (ok && view.accepted == h <==> w < MAX_ROLLBACK && forall t :: 0 <= t < w ==> OpenAt(view.g, h, ver, t))
  {
    hide Pick, Argmax, Masked, AlwaysOpen, Accepts, Walk, Matching, MaskedTruth;
    ghost var h := view.accepted;
    var took := view.Advance(ver[0]);
    if !took { return plain, true; }
    WalkFirst(view.g, h, ver);
    var acc;
    truth, acc := WalkDrafts(view, h, ver, actual, rows, plain, eos);
    WalkedMatches(view.g, h, ver, actual, rows, plain, truth, eos, acc - 1);
    ok := view.Rewind(acc);
  }

  /** The network's scores behind every token of a verify pass. */
  ghost function RowsFor(g: Grammar, scores: seq<Token> -> Scores, prompt: seq<Token>, outs: seq<Token>, ver: seq<Token>)
      : (r: seq<Scores>)
    requires ScoresOk(g, scores)
    ensures |r| == |ver| && forall t :: 0 <= t < |r| ==> r[t] != [] && r[t] == scores(prompt + outs + ver[..t + 1])
  {
    seq(|ver|, t requires 0 <= t < |ver| => scores(prompt + outs + ver[..t + 1]))
  }

  /** The walk over `ver` counts more steps than were taken, or more than the matcher can undo. */
  ghost predicate UndoFails(g: Grammar, h: seq<Token>, ver: seq<Token>, actual: nat, rows: seq<Scores>, eos: Option<Token>)
    requires |ver| == |rows| && actual < |ver| && forall t :: 0 <= t < |rows| ==> rows[t] != []
  {
    && Accepts(g, h, ver[0])
    && var w := Matching(g, h, ver, actual, rows, eos, 0);
       w + 1 > |Walk(g, h, ver[..w + 1])| || w >= MAX_ROLLBACK
  }

  ghost predicate UndoFailsFor(g: Grammar, scores: seq<Token> -> Scores, prompt: seq<Token>, outs: seq<Token>,
                               ver: seq<Token>, eos: Option<Token>)
    requires ScoresOk(g, scores) && ver != []
  {
    UndoFails(g, Walk(g, [], outs), ver, |ver| - 1, RowsFor(g, scores, prompt, outs, ver), eos)
  }

  /** The next token is the EOS, and some drafts behind it make the undo fail. */
  ghost predicate MayGiveUp(g: Grammar, scores: seq<Token> -> Scores, prompt: seq<Token>, outs: seq<Token>, specK: nat,
                            eos: Option<Token>)
    requires ScoresOk(g, scores)
  {
    exists drafts :: 0 < |drafts| <= specK && FailsBehindEos(g, scores, prompt, outs, drafts, eos)
  }

  ghost predicate FailsBehindEos(g: Grammar, scores: seq<Token> -> Scores, prompt: seq<Token>, outs: seq<Token>,
                                 drafts: seq<Token>, eos: Option<Token>)
    requires ScoresOk(g, scores)
  {
    var base := MaskedNext(g, scores, prompt, outs);
    eos == Some(base) && UndoFailsFor(g, scores, prompt, outs, [base] + drafts, eos)
  }

  lemma GivesUp(g: Grammar, scores: seq<Token> -> Scores, prompt: seq<Token>, outs: seq<Token>, drafts: seq<Token>,
                specK: nat, eos: Option<Token>)
    requires ScoresOk(g, scores) && 0 < |drafts| <= specK && FailsBehindEos(g, scores, prompt, outs, drafts, eos)
    ensures MayGiveUp(g, scores, prompt, outs, specK, eos)
  {
  }

  /** Nothing behind the drafts is looked at. */
  lemma {:induction false} MatchingPrefix(g: Grammar, h: seq<Token>, ver: seq<Token>, rows: seq<Scores>, more: seq<Token>,
                                          all: seq<Scores>, actual: nat, eos: Option<Token>, t: nat)
    requires |ver| == |rows| <= |all| == |more| && t <= actual < |ver| && ver == more[..|ver|]
    requires (forall s :: 0 <= s < |all| ==> all[s] != []) && forall s :: 0 <= s < |rows| ==> rows[s] == all[s]
    ensures Matching(g, h, ver, actual, rows, eos, t) == Matching(g, h, more, actual, all, eos, t)
    decreases actual - t
  {
    hide Pick, Walk;
    if t < actual {
      assert ver[..t + 1] == more[..t + 1];
      MatchingPrefix(g, h, ver, rows, more, all, actual, eos, t + 1);
    }
  }

  lemma UndoPrefix(g: Grammar, scores: seq<Token> -> Scores, prompt: seq<Token>, outs: seq<Token>, ver: seq<Token>,
                   padding: seq<Token>, eos: Option<Token>)
    requires ScoresOk(g, scores) && ver != []
    ensures
      var h, n, all := Walk(g, [], outs), |ver| - 1, ver + padding;
      UndoFails(g, h, ver, n, RowsFor(g, scores, prompt, outs, ver), eos)
      <==> UndoFails(g, h, all, n, RowsFor(g, scores, prompt, outs, all), eos)
  {
    hide Walk, Accepts, Matching, ScoresOk;
    var h, n, all := Walk(g, [], outs), |ver| - 1, ver + padding;
    var rows, more := RowsFor(g, scores, prompt, outs, ver), RowsFor(g, scores, prompt, outs, all);
    forall s | 0 <= s < |ver| ensures rows[s] == more[s] {
      assert all[..s + 1] == ver[..s + 1];
    }
    assert all[..|ver|] == ver;
    MatchingPrefix(g, h, ver, rows, all, more, n, eos, 0);
    var w := Matching(g, h, ver, n, rows, eos, 0);
    assert all[..w + 1] == ver[..w + 1];
  }

  /** A grammar of two ones. */
  function TwoOnes(): Grammar {
    Grammar(3, (h: seq<Token>, t) => t == 1, (h: seq<Token>) => |h| >= 2, (h: seq<Token>) => [])
  }

  lemma TwoOnesOpen()
    ensures AlwaysOpen(TwoOnes())
  {
    forall h | !TwoOnes().over(h) ensures exists t :: Accepts(TwoOnes(), h, t) {
      assert Accepts(TwoOnes(), h, 1);
    }
  }

  /** Scores in which token 2 comes first. */
  function TwoFirst(): Scores {
    [Some(0), Some(0), Some(1)]
  }

  /** The matcher has one token of the grammar, the base token completes it, and the draft after
      it is what the unmasked scores favour: it matches, and two steps are counted although only
      one was taken. */
  lemma DraftMatchesPastEnd()
    ensures
      var g, ver, rows := TwoOnes(), [1, 2], [TwoFirst(), TwoFirst()];
      && Accepts(g, [1], 1) && !OpenAt(g, [1], ver, 0)
      && Matching(g, [1], ver, 1, rows, None, 0) == 1 && Walk(g, [1], ver) == [1, 1]
  {
    var g, ver, rows := TwoOnes(), [1, 2], [TwoFirst(), TwoFirst()];
    WalkFirst(g, [1], ver);
    WalkNext(g, [1], ver, 1);
    assert ver[..2] == ver && ver[..1] == [1] && [1] + [1] == [1, 1];
    assert !Above(TwoFirst()[2], TwoFirst()[Argmax(TwoFirst())]);
    assert MaskedTruth(g, [1], ver, rows, 0) == 2;
  }

  /** The undo of that walk takes the token that was there before. */
  method CommittedTokenLost() returns (view: GrammarLogitsProcessor, ok: bool)
    ensures fresh(view) && view.g == TwoOnes() && ok && view.accepted == []
  {
    hide Walk, Matching, Argmax, MaskedTruth;
    TwoOnesOpen();
    view := new GrammarLogitsProcessor(TwoOnes(), false);
    var took := view.Advance(1);
    assert view.accepted == [1];
    DraftMatchesPastEnd();
    var truth;
    truth, ok := VerifyWalk(view, [1, 2], 1, [TwoFirst(), TwoFirst()], [2, 2], None);
    assert [1, 2][..2] == [1, 2];
  }

  // ---- a constrained row's step --------------------------------------------------

  /** From position `n` on, every output is what mask-then-argmax decoding picks. */
  ghost predicate Constrained(g: Grammar, scores: seq<Token> -> Scores, prompt: seq<Token>, outs: seq<Token>, n: nat)
    requires ScoresOk(g, scores)
  {
    forall j :: n <= j < |outs| ==> outs[j] == MaskedNext(g, scores, prompt, outs[..j])
  }

  /** The truths of slots `0..w` are the masked ones, and past `w` acceptance ends with an EOS
      if it does not end at `w`. */
  ghost predicate TrueUpTo(g: Grammar, scores: seq<Token> -> Scores, prompt: seq<Token>, outs: seq<Token>, ver: seq<Token>,
                           actual: nat, truth: seq<Token>, eos: Option<Token>, w: nat)
    requires ScoresOk(g, scores) && |truth| == |ver| && actual < |ver|
  {
    && w <= actual
    && (forall t :: 0 <= t <= w ==> truth[t] == MaskedNext(g, scores, prompt, outs + ver[..t + 1]))
    && (w < actual ==> ver[w + 1] != truth[w] || eos == Some(truth[w]))
  }

  lemma MaskedTruthIs(g: Grammar, scores: seq<Token> -> Scores, prompt: seq<Token>, outs: seq<Token>, ver: seq<Token>,
                      rows: seq<Scores>, t: nat)
    requires ScoresOk(g, scores) && t < |ver| == |rows| && rows[t] == scores(prompt + outs + ver[..t + 1])
    ensures MaskedTruth(g, Walk(g, [], outs), ver, rows, t) == MaskedNext(g, scores, prompt, outs + ver[..t + 1])
  {
    hide Pick, Walk;
    WalkSplit(g, [], outs, ver[..t + 1]);
    assert prompt + outs + ver[..t + 1] == prompt + (outs + ver[..t + 1]);
  }

  /** With the matcher in step the walk finds the masked truths, also when it cannot start
      because the grammar is complete. */
  lemma WalkIsTrue(g: Grammar, scores: seq<Token> -> Scores, prompt: seq<Token>, outs: seq<Token>, ver: seq<Token>,
                   actual: nat, rows: seq<Scores>, plain: seq<Token>, truth: seq<Token>, eos: Option<Token>, w: nat)
      returns (upTo: nat)
    requires ScoresOk(g, scores) && AlwaysOpen(g) && |ver| == |rows| == |plain| == |truth| && actual < |ver|
    requires forall t :: 0 <= t < |ver| ==> rows[t] == scores(prompt + outs + ver[..t + 1])
    requires forall t :: 0 <= t < |ver| ==> |rows[t]| == g.vocab && plain[t] == Argmax(rows[t])
    requires ver[0] == MaskedNext(g, scores, prompt, outs)
    requires
      var h := Walk(g, [], outs);
      if Accepts(g, h, ver[0]) then Walked(g, h, ver, actual, rows, plain, truth, eos, w) else truth == plain
    ensures TrueUpTo(g, scores, prompt, outs, ver, actual, truth, eos, upTo)
  {
    hide Pick, Argmax, Accepts, AlwaysOpen, Walk, MaskedNext;
    var h := Walk(g, [], outs);
    upTo := if Accepts(g, h, ver[0]) then w else actual;
    forall t | 0 <= t <= upTo ensures truth[t] == MaskedNext(g, scores, prompt, outs + ver[..t + 1]) {
      MaskedTruthIs(g, scores, prompt, outs, ver, rows, t);
      if !Accepts(g, h, ver[0]) { CompleteTruth(g, scores, prompt, outs, ver, rows, t); }
    }
  }

  /** A base token the matcher refuses means the grammar is complete, and then nothing is masked. */
  lemma CompleteTruth(g: Grammar, scores: seq<Token> -> Scores, prompt: seq<Token>, outs: seq<Token>, ver: seq<Token>,
                      rows: seq<Scores>, t: nat)
    requires ScoresOk(g, scores) && AlwaysOpen(g) && t < |ver| == |rows| && |rows[t]| == g.vocab
    requires ver[0] == MaskedNext(g, scores, prompt, outs) && !Accepts(g, Walk(g, [], outs), ver[0])
    ensures MaskedTruth(g, Walk(g, [], outs), ver, rows, t) == Argmax(rows[t])
  {
    hide Argmax, Walk, Accepts;
    var h := Walk(g, [], outs);
    if !g.over(h) { PickAccepted(g, h, scores(prompt + outs)); }
    WalkOver(g, h, ver[..t + 1]);
  }

  /** What a step emits are masked picks, whatever was drafted. */
  lemma EmittedConstrained(g: Grammar, scores: seq<Token> -> Scores, q: Sequence, ver: seq<Token>, actual: nat,
                           truth: seq<Token>, eos: Option<Token>, w: nat, n: nat, m: nat)
    requires ScoresOk(g, scores) && |truth| == |ver| && actual < |ver| && !q.ignoreEos
    requires TrueUpTo(g, scores, q.prompt, q.outputs, ver, actual, truth, eos, w)
    requires ver[0] == MaskedNext(g, scores, q.prompt, q.outputs)
    requires AcceptCount(ver, truth, actual, n) && EmitCount(q, eos, ver[..n + 1], m)
    ensures Constrained(g, scores, q.prompt, q.outputs + ver[..m], |q.outputs|)
  {
    hide MaskedNext;
    var outs := q.outputs + ver[..m];
    forall j | |q.outputs| <= j < |outs| ensures outs[j] == MaskedNext(g, scores, q.prompt, outs[..j]) {
      var i := j - |q.outputs|;
      assert outs[..j] == q.outputs + ver[..i];
      if i == 0 {
        assert q.outputs + ver[..0] == q.outputs;
      } else {
        AcceptedWithin(q, ver, actual, truth, eos, w, n, m, i);
        assert ver[i] == truth[i - 1];
      }
    }
  }

  lemma AcceptedWithin(q: Sequence, ver: seq<Token>, actual: nat, truth: seq<Token>, eos: Option<Token>,
                       w: nat, n: nat, m: nat, i: nat)
    requires |truth| == |ver| && actual < |ver| && !q.ignoreEos && w <= actual
    requires w < actual ==> ver[w + 1] != truth[w] || eos == Some(truth[w])
    requires AcceptCount(ver, truth, actual, n) && EmitCount(q, eos, ver[..n + 1], m)
    requires 1 <= i < m || (i == n + 1 == m && eos != Some(ver[n]))
    ensures i - 1 <= w
  {
    if i - 1 > w {
      assert ver[w + 1] == truth[w];
      assert q.Stops(eos, ver[..n + 1][w + 1]);
    }
  }

  /** A draft is right although the grammar was complete before it. */
  ghost predicate PastEnd(g: Grammar, scores: seq<Token> -> Scores, prompt: seq<Token>, outs: seq<Token>, ver: seq<Token>,
                          eos: Option<Token>, t: nat)
    requires ScoresOk(g, scores)
  {
    && t + 1 < |ver| && g.over(Walk(g, [], outs + ver[..t + 1]))
    && forall s :: 0 <= s <= t ==> RightDraft(g, scores, prompt, outs, ver, eos, s)
  }

  ghost predicate RightDraft(g: Grammar, scores: seq<Token> -> Scores, prompt: seq<Token>, outs: seq<Token>, ver: seq<Token>,
                             eos: Option<Token>, s: nat)
    requires ScoresOk(g, scores)
  {
    s + 1 < |ver| && ver[s + 1] == MaskedNext(g, scores, prompt, outs + ver[..s + 1]) && eos != Some(ver[s + 1])
  }

  ghost predicate DraftsPastEnd(g: Grammar, scores: seq<Token> -> Scores, prompt: seq<Token>, outs: seq<Token>,
                                ver: seq<Token>, actual: nat, eos: Option<Token>)
    requires ScoresOk(g, scores)
  {
    exists t: nat :: t < actual && PastEnd(g, scores, prompt, outs, ver, eos, t)
  }

  /** Every step of the walk was really taken exactly when no draft is right past the grammar's
      end. */
  lemma WalkRestores(g: Grammar, scores: seq<Token> -> Scores, prompt: seq<Token>, outs: seq<Token>, ver: seq<Token>,
                     actual: nat, rows: seq<Scores>, plain: seq<Token>, truth: seq<Token>, eos: Option<Token>, w: nat)
    requires ScoresOk(g, scores) && |ver| == |rows| == |plain| && actual < |ver|
    requires forall t :: 0 <= t < |rows| ==> rows[t] == scores(prompt + outs + ver[..t + 1]) && rows[t] != []
    requires Walked(g, Walk(g, [], outs), ver, actual, rows, plain, truth, eos, w)
    ensures (forall t :: 0 <= t < w ==> OpenAt(g, Walk(g, [], outs), ver, t))
       <==> !DraftsPastEnd(g, scores, prompt, outs, ver, actual, eos)
  {
    hide Accepts, MaskedTruth, MaskedNext, Walk;
    forall t: nat | t < |ver|
      ensures MaskedTruth(g, Walk(g, [], outs), ver, rows, t) == MaskedNext(g, scores, prompt, outs + ver[..t + 1])
      ensures g.over(Walk(g, [], outs + ver[..t + 1])) <==> !OpenAt(g, Walk(g, [], outs), ver, t)
    {
      MaskedTruthIs(g, scores, prompt, outs, ver, rows, t);
      WalkSplit(g, [], outs, ver[..t + 1]);
    }
    forall t: nat | t < actual
      ensures PastEnd(g, scores, prompt, outs, ver, eos, t) <==> t < w && !OpenAt(g, Walk(g, [], outs), ver, t)
    {
      if t < w {
        forall s | 0 <= s <= t ensures RightDraft(g, scores, prompt, outs, ver, eos, s) {
          assert ver[s + 1] == truth[s];
        }
      } else {
        assert !RightDraft(g, scores, prompt, outs, ver, eos, w);
      }
    }
  }

  /** Along the row's masked run the grammar is complete only after an EOS. */
  ghost predicate EndsAtEos(g: Grammar, scores: seq<Token> -> Scores, prompt: seq<Token>, eos: Option<Token>)
    requires ScoresOk(g, scores)
  {
    forall gen :: Constrained(g, scores, prompt, gen, 0) && NoEos(gen, eos) ==> !g.over(Walk(g, [], gen))
  }

  predicate NoEos(toks: seq<Token>, eos: Option<Token>) {
    forall j :: 0 <= j < |toks| ==> eos != Some(toks[j])
  }

  /** So it is if only the EOS completes the grammar at all. */
  lemma StopsEndsAtEos(g: Grammar, scores: seq<Token> -> Scores, prompt: seq<Token>, eos: Option<Token>)
    requires ScoresOk(g, scores) && StopsAtEos(g, eos)
    ensures EndsAtEos(g, scores, prompt, eos)
  {
    hide Constrained, Accepts;
    forall gen | NoEos(gen, eos) ensures !g.over(Walk(g, [], gen)) {
      WalkIn(g, gen);
      var h := Walk(g, [], gen);
      if h != [] {
        var x := h[|h| - 1];
        assert x in h && x in gen;
        assert eos != Some(x);
      }
    }
  }

  lemma {:induction false} WalkIn(g: Grammar, toks: seq<Token>)
    ensures forall t :: t in Walk(g, [], toks) ==> t in toks
  {
    if toks != [] { WalkIn(g, Init(toks)); }
  }

  /** Then no draft is right past the grammar's end, unless the base token is the EOS. */
  lemma NeverPastEnd(g: Grammar, scores: seq<Token> -> Scores, prompt: seq<Token>, outs: seq<Token>, ver: seq<Token>,
                     actual: nat, eos: Option<Token>)
    requires ScoresOk(g, scores) && EndsAtEos(g, scores, prompt, eos) && ver != []
    requires Constrained(g, scores, prompt, outs, 0) && NoEos(outs, eos)
    requires ver[0] == MaskedNext(g, scores, prompt, outs) && eos != Some(ver[0])
    ensures !DraftsPastEnd(g, scores, prompt, outs, ver, actual, eos)
  {
    hide MaskedNext, Walk;
    forall t: nat | t < actual ensures !PastEnd(g, scores, prompt, outs, ver, eos, t) {
      if t + 1 < |ver| && forall s :: 0 <= s <= t ==> RightDraft(g, scores, prompt, outs, ver, eos, s) {
        ChainOn(g, scores, prompt, outs, ver, eos, t);
      }
    }
  }

  /** Outputs, base token and right drafts are one masked run. */
  lemma ChainOn(g: Grammar, scores: seq<Token> -> Scores, prompt: seq<Token>, outs: seq<Token>, ver: seq<Token>,
                eos: Option<Token>, t: nat)
    requires ScoresOk(g, scores) && t + 1 < |ver|
    requires Constrained(g, scores, prompt, outs, 0) && NoEos(outs, eos)
    requires ver[0] == MaskedNext(g, scores, prompt, outs) && eos != Some(ver[0])
    requires forall s :: 0 <= s <= t ==> RightDraft(g, scores, prompt, outs, ver, eos, s)
    ensures Constrained(g, scores, prompt, outs + ver[..t + 1], 0) && NoEos(outs + ver[..t + 1], eos)
  {
    hide MaskedNext;
    var all := outs + ver[..t + 1];
    forall j | 0 <= j < |all| ensures all[j] == MaskedNext(g, scores, prompt, all[..j]) && eos != Some(all[j]) {
      if j < |outs| {
        assert all[..j] == outs[..j];
      } else if j == |outs| {
        assert all[..j] == outs;
      } else {
        var s := j - |outs| - 1;
        assert all[..j] == outs + ver[..s + 1];
        assert RightDraft(g, scores, prompt, outs, ver, eos, s);
      }
    }
  }

  lemma AcceptedShape(q: Sequence, eos: Option<Token>, ver: seq<Token>, truth: seq<Token>, actual: nat,
                      r: Sequence, n: nat, m: nat)
    requires Accepted(q, eos, ver, truth, actual, r, n, m) && 1 <= m <= n + 1 <= |ver|
    ensures r.prompt == q.prompt && r.outputs == q.outputs + ver[..m] && r.Req() == q.Req() && r.fold == q.fold
    ensures AcceptCount(ver, truth, actual, n) && EmitCount(q, eos, ver[..n + 1], m)
  {
    hide AcceptCount, EmitCount;
  }

  /** A row without a carry is over, and no EOS lies strictly inside what it emitted. */
  lemma EndsOnlyFinished(q: Sequence, eos: Option<Token>, ver: seq<Token>, truth: seq<Token>, actual: nat,
                         r: Sequence, n: nat, m: nat)
    requires Accepted(q, eos, ver, truth, actual, r, n, m) && 1 <= m <= n + 1 <= |ver| && !q.ignoreEos
    ensures r.carry.None? ==> r.IsFinished(eos)
    ensures forall j :: |q.outputs| <= j < |r.outputs| - 1 ==> eos != Some(r.outputs[j])
  {
    hide AcceptCount;
    forall j | |q.outputs| <= j < |r.outputs| - 1 ensures eos != Some(r.outputs[j]) {
      assert !q.Stops(eos, ver[..n + 1][j - |q.outputs|]);
    }
    if m < n + 1 { assert Last(r.outputs) == ver[..n + 1][m - 1]; }
  }

  lemma CarryConstrained(g: Grammar, scores: seq<Token> -> Scores, q: Sequence, ver: seq<Token>, actual: nat,
                         truth: seq<Token>, eos: Option<Token>, w: nat, r: Sequence, n: nat, m: nat)
    requires ScoresOk(g, scores) && |truth| == |ver| && actual < |ver| && !q.ignoreEos
    requires TrueUpTo(g, scores, q.prompt, q.outputs, ver, actual, truth, eos, w)
    requires Accepted(q, eos, ver, truth, actual, r, n, m) && r.carry.Some? && 1 <= m <= n + 1 <= |ver|
    ensures eos != Some(ver[0])
    ensures r.carry.value == MaskedNext(g, scores, q.prompt, r.outputs)
  {
    hide MaskedNext;
    assert m == n + 1 && Last(r.outputs) == ver[n] && eos != Some(ver[n]);
    AcceptedWithin(q, ver, actual, truth, eos, w, n, m, n + 1);
    if m > 1 { assert !q.Stops(eos, ver[..n + 1][0]); }
  }

  /** The base token of a constrained row: mask, then take the best. */
  method BasePick(view: GrammarLogitsProcessor, scores: seq<Token> -> Scores, prompt: seq<Token>, gen: seq<Token>)
    returns (base: Token)
    requires view.InSync(prompt, gen) && scores(prompt + gen) != []
    ensures base == MaskedNext(view.g, scores, prompt, gen)
  {
    base := Pick(view.g, view.accepted, scores(prompt + gen));
  }

  /** A step without drafts: the base token is committed to the matcher. */
  method CommitBase(view: GrammarLogitsProcessor, prompt: seq<Token>, gen: seq<Token>, base: Token)
    requires view.InSync(prompt, gen)
    modifies view
    ensures view.InSync(prompt, gen + [base])
  {
    assert Init(gen + [base]) == gen;
    var ok := view.Advance(base);
    view.MarkCommitted(|prompt + gen| + 1);
  }

  /** What the step makes of the row: the base token and drafts behind it are emitted, up to a stop,
      and a row that goes on stopped at no draft but a wrong one, whose place its carry takes. */
  ghost predicate TookDrafts(q: Sequence, r: Sequence, ver: seq<Token>, actual: nat) {
    var emit := |r.outputs| - |q.outputs|;
    && 1 <= emit <= actual + 1 <= |ver| && r == Committed(q, ver[..emit], r.carry)
    && (r.carry.Some? && emit <= actual ==> ver[emit] != r.carry.value)
  }

  /** What pads a row's drafts to the width of the pass is not looked at. */
  lemma PaddingUnseen(q: Sequence, r: Sequence, ver: seq<Token>, padding: seq<Token>)
    requires ver != [] && TookDrafts(q, r, ver + padding, |ver| - 1)
    ensures TookDrafts(q, r, ver, |ver| - 1)
  {
    hide Committed;
    var emit := |r.outputs| - |q.outputs|;
    assert (ver + padding)[..emit] == ver[..emit];
  }

  lemma AcceptedTakes(q: Sequence, eos: Option<Token>, ver: seq<Token>, truth: seq<Token>, actual: nat,
                      r: Sequence, n: nat, m: nat)
    requires Accepted(q, eos, ver, truth, actual, r, n, m)
    ensures TookDrafts(q, r, ver, actual)
  {
    hide FinishReason;
    AcceptedBounds(q, eos, ver, truth, actual, r, n, m);
  }

  /** Verify and accept one constrained row whose carry is the masked pick and which was never
      preempted. It emits masked picks only, within its budget, and as many drafts as are right. A
      row that goes on carries the next masked pick. Unless a draft is right past the grammar's end, or more is drafted than the
      matcher can undo, its matcher has then accepted exactly the generated tokens and the undo
      does not fail; None is that failure. */
  method VerifyConstrainedRow(view: GrammarLogitsProcessor, q: Sequence, scores: seq<Token> -> Scores, ver: seq<Token>,
                              actual: nat, eos: Option<Token>)
    returns (r: Option<Sequence>)
    requires view.InSync(q.prompt, q.outputs) && actual < |ver| && q.carry == Some(ver[0]) && q.fold == 0
    requires ScoresOk(view.g, scores) && AlwaysOpen(view.g)
    requires ver[0] == MaskedNext(view.g, scores, q.prompt, q.outputs)
    requires !q.ignoreEos && !q.IsFinished(eos)
    modifies view
    ensures r.None? <==>
      UndoFails(view.g, old(view.accepted), ver, actual, RowsFor(view.g, scores, q.prompt, q.outputs, ver), eos)
    ensures r.None? ==>
      actual >= MAX_ROLLBACK || DraftsPastEnd(view.g, scores, q.prompt, q.outputs, ver, actual, eos)
    ensures r.Some? ==> q.outputs < r.value.outputs && |r.value.outputs| <= q.maxTokens
    ensures r.Some? ==> r.value.prompt == q.prompt && r.value.Req() == q.Req() && r.value.fold == 0
    ensures r.Some? ==> Constrained(view.g, scores, q.prompt, r.value.outputs, |q.outputs|)
    ensures r.Some? ==> forall j :: |q.outputs| <= j < |r.value.outputs| - 1 ==> eos != Some(r.value.outputs[j])
    ensures r.Some? && r.value.carry.None? ==> r.value.IsFinished(eos)
    ensures r.Some? && r.value.carry.Some? ==>
      r.value.carry.value == MaskedNext(view.g, scores, q.prompt, r.value.outputs)
    ensures r.Some? ==> TookDrafts(q, r.value, ver, actual)
    ensures r.Some? && r.value.carry.Some? ==>
      || actual >= MAX_ROLLBACK || DraftsPastEnd(view.g, scores, q.prompt, q.outputs, ver, actual, eos)
      || view.InSync(q.prompt, r.value.outputs)
  {
    hide Pick, Argmax, Accepts, AlwaysOpen, Walk, Matching, MaskedNext, AcceptCount, FinishReason, Accepted, DraftsPastEnd,
         EmitCount, TrueUpTo, TookDrafts;
    ghost var h := view.accepted;
    var rows := seq(|ver|, t requires 0 <= t < |ver| => scores(q.prompt + q.outputs + ver[..t + 1]));
    var plain := seq(|ver|, t requires 0 <= t < |rows| && rows[t] != [] => Argmax(rows[t]));
    assert rows == RowsFor(view.g, scores, q.prompt, q.outputs, ver);
    ghost var w := Matching(view.g, h, ver, actual, rows, eos, 0);
    var truth, ok := VerifyWalk(view, ver, actual, rows, plain, eos);
    ghost var upTo := WalkIsTrue(view.g, scores, q.prompt, q.outputs, ver, actual, rows, plain, truth, eos, w);
    if Accepts(view.g, h, ver[0]) {
      WalkRestores(view.g, scores, q.prompt, q.outputs, ver, actual, rows, plain, truth, eos, w);
    }
    if !ok { return None; }
    var next;
    ghost var n, m;
    next, n, m := AcceptRow(q, eos, ver, truth, actual);
    AcceptedBounds(q, eos, ver, truth, actual, next, n, m);
    AcceptedShape(q, eos, ver, truth, actual, next, n, m);
    EmittedConstrained(view.g, scores, q, ver, actual, truth, eos, upTo, n, m);
    EndsOnlyFinished(q, eos, ver, truth, actual, next, n, m);
    AcceptedTakes(q, eos, ver, truth, actual, next, n, m);
    WithinBudget(q, eos, ver[..n + 1], m);
    r := Some(next);
    if next.carry.Some? {
      CarryConstrained(view.g, scores, q, ver, actual, truth, eos, upTo, next, n, m);
      Recommit(view, q.prompt, q.outputs, h, ver, next.outputs[|q.outputs|..]);
    }
  }

  lemma WithinBudget(q: Sequence, eos: Option<Token>, acc: seq<Token>, m: nat)
    requires acc != [] && EmitCount(q, eos, acc, m) && !q.IsFinished(eos)
    ensures |q.outputs| + m <= q.maxTokens
  {
  }

  /** The emitted tokens are shown to the matcher for good. */
  method Recommit(view: GrammarLogitsProcessor, prompt: seq<Token>, outs: seq<Token>, ghost h: seq<Token>,
                  ghost ver: seq<Token>, emit: seq<Token>)
    requires h == Walk(view.g, [], outs) && emit <= ver
    modifies view
    ensures old(view.accepted) == h ==> view.InSync(prompt, outs + emit)
  {
    hide Walk;
    ghost var from := view.accepted;
    WalkNothing(view.g, from, emit);
    for i := 0 to |emit|
      invariant view.accepted == Walk(view.g, from, emit[..i])
    {
      WalkNext(view.g, from, emit, i);
      var took := view.Advance(emit[i]);
    }
    assert emit[..|emit|] == emit;
    view.MarkCommitted(|prompt + outs + emit|);
    WalkSplit(view.g, [], outs, emit);
  }

  // ---- a preempted row -----------------------------------------------------------

  /** What the matcher makes of a preempted row: it had seen the prompt and the first `k` outputs,
      and is then shown the folded prompt with all outputs behind it. It lands where it should be
      exactly when it refuses every output in the state the outputs lead to. */
  method Resync(view: GrammarLogitsProcessor, q: Sequence, k: nat)
    requires q.fold == 0 && k <= |q.outputs| && view.InSync(q.prompt, q.outputs[..k])
    modifies view
    ensures view.accepted == Walk(view.g, [], q.outputs + q.outputs)
    ensures view.accepted == Walk(view.g, [], q.outputs)
       <==> forall i :: 0 <= i < |q.outputs| ==> !Accepts(view.g, Walk(view.g, [], q.outputs), q.outputs[i])
  {
    hide Walk, Accepts;
    var p := Preempt(q);
    var ids := p.prompt + p.outputs;
    assert ids == q.prompt + (q.outputs + q.outputs);
    assert q.prompt + q.outputs[..k] <= ids;
    view.Sync(ids, q.prompt, q.outputs[..k]);
    assert ids[|q.prompt|..] == q.outputs + q.outputs;
    RefedExact(view.g, q.outputs);
  }

  // ---- a whole constrained run ---------------------------------------------------

  predicate MaskedDone(maxTokens: nat, eos: Option<Token>, outs: seq<Token>) {
    |outs| >= maxTokens || (outs != [] && eos == Some(Last(outs)))
  }

  /** Mask-then-argmax decoding continued from `outs` until the budget or the EOS. */
  ghost function MaskedFrom(g: Grammar, scores: seq<Token> -> Scores, prompt: seq<Token>, maxTokens: nat,
                            eos: Option<Token>, outs: seq<Token>): seq<Token>
    requires ScoresOk(g, scores)
    decreases if |outs| < maxTokens then maxTokens - |outs| else 0
  {
    if MaskedDone(maxTokens, eos, outs) then outs
    else MaskedFrom(g, scores, prompt, maxTokens, eos, outs + [MaskedNext(g, scores, prompt, outs)])
  }

  /** Masked picks that pass no stop on the way stay on the masked run. */
  lemma {:induction false} StaysMasked(g: Grammar, scores: seq<Token> -> Scores, prompt: seq<Token>, maxTokens: nat,
                                       eos: Option<Token>, outs: seq<Token>, k: nat)
    requires ScoresOk(g, scores) && k <= |outs| && Constrained(g, scores, prompt, outs, k)
    requires forall j :: k <= j < |outs| ==> !MaskedDone(maxTokens, eos, outs[..j])
    ensures MaskedFrom(g, scores, prompt, maxTokens, eos, outs) == MaskedFrom(g, scores, prompt, maxTokens, eos, outs[..k])
    decreases |outs| - k
  {
    hide MaskedNext;
    if k == |outs| {
      assert outs[..k] == outs;
    } else {
      StaysMasked(g, scores, prompt, maxTokens, eos, outs, k + 1);
      assert outs[..k + 1] == outs[..k] + [outs[k]];
    }
  }

  /** A row of a constrained run: masked picks so far, on the masked run of the request, with an
      EOS at the end at most; `cut` outputs were shown to the matcher, and all of them if a carry,
      which is the next masked pick, is held. */
  ghost predicate OnMaskedRun(g: Grammar, scores: seq<Token> -> Scores, eos: Option<Token>, q: Sequence, cut: nat)
    requires ScoresOk(g, scores)
  {
    && q.outputs != [] && q.fold == 0 && !q.ignoreEos && (q.maxLen.Some? ==> |q.prompt| + q.maxTokens <= q.maxLen.value)
    && Constrained(g, scores, q.prompt, q.outputs, 0) && NoEos(Init(q.outputs), eos)
    && MaskedFrom(g, scores, q.prompt, q.maxTokens, eos, q.outputs)
       == MaskedFrom(g, scores, q.prompt, q.maxTokens, eos, [MaskedNext(g, scores, q.prompt, [])])
    && |q.outputs| - 1 <= cut <= |q.outputs|
    && (q.carry.Some? ==> cut == |q.outputs| && q.carry.value == MaskedNext(g, scores, q.prompt, q.outputs))
  }

  /** What one more step emits keeps the row on the masked run. */
  lemma MaskedStep(g: Grammar, scores: seq<Token> -> Scores, eos: Option<Token>, q: Sequence, cut: nat, r: Sequence, now: nat)
    requires ScoresOk(g, scores) && OnMaskedRun(g, scores, eos, q, cut) && !q.IsFinished(eos)
    requires r.prompt == q.prompt && r.Req() == q.Req() && r.fold == 0 && q.outputs < r.outputs
    requires Constrained(g, scores, q.prompt, r.outputs, |q.outputs|) && |r.outputs| <= q.maxTokens
    requires forall j :: |q.outputs| <= j < |r.outputs| - 1 ==> eos != Some(r.outputs[j])
    requires |r.outputs| - 1 <= now <= |r.outputs|
    requires r.carry.Some? ==> now == |r.outputs| && r.carry.value == MaskedNext(g, scores, r.prompt, r.outputs)
    ensures OnMaskedRun(g, scores, eos, r, now)
  {
    hide MaskedNext, MaskedFrom;
    assert eos != Some(Last(q.outputs));
    forall j | 0 <= j < |r.outputs| ensures r.outputs[j] == MaskedNext(g, scores, r.prompt, r.outputs[..j]) {
      if j < |q.outputs| { assert r.outputs[..j] == q.outputs[..j]; }
    }
    forall j | 0 <= j < |r.outputs| - 1 ensures eos != Some(Init(r.outputs)[j]) {
      if j < |q.outputs| - 1 { assert Init(q.outputs)[j] == r.outputs[j]; }
    }
    forall j | |q.outputs| <= j < |r.outputs| ensures !MaskedDone(q.maxTokens, eos, r.outputs[..j]) {
      assert Last(r.outputs[..j]) == r.outputs[j - 1];
    }
    assert r.outputs[..|q.outputs|] == q.outputs;
    StaysMasked(g, scores, q.prompt, q.maxTokens, eos, r.outputs, |q.outputs|);
  }

  /** The row's first token, from the anchored prompt. */
  lemma MaskedStart(g: Grammar, scores: seq<Token> -> Scores, eos: Option<Token>, q: Sequence)
    requires ScoresOk(g, scores) && q.outputs == [MaskedNext(g, scores, q.prompt, [])] && q.fold == 0 && !q.ignoreEos
    requires (q.maxLen.Some? ==> |q.prompt| + q.maxTokens <= q.maxLen.value) && q.carry.None?
    ensures OnMaskedRun(g, scores, eos, q, 0)
  {
    hide MaskedNext, MaskedFrom;
    assert q.outputs[..0] == [] && Init(q.outputs) == [];
  }

  /** A plain constrained step: catch up, mask, take the best. */
  method PlainConstrained(view: GrammarLogitsProcessor, q: Sequence, scores: seq<Token> -> Scores, ghost cut: nat)
    returns (r: Sequence)
    requires cut <= |q.outputs| && view.InSync(q.prompt, q.outputs[..cut])
    requires ScoresOk(view.g, scores)
    modifies view
    ensures view.InSync(q.prompt, q.outputs)
    ensures r == q.(outputs := q.outputs + [MaskedNext(view.g, scores, q.prompt, q.outputs)])
  {
    hide Walk, Argmax, Masked;
    var ids := q.prompt + q.outputs;
    assert q.prompt + q.outputs[..cut] <= ids && ids[|q.prompt|..] == q.outputs;
    var row := view.Call(ids, scores(ids), q.prompt, q.outputs[..cut]);
    r := q.(outputs := q.outputs + [Argmax(row)]);
  }

  /** A speculative step of a constrained row without a stale carry: catch up, bootstrap the base
      token if none is carried, and commit it alone or verify the drafts behind it, whatever they
      are. None is the matcher's undo error. */
  method SpecConstrained(view: GrammarLogitsProcessor, q: Sequence, scores: seq<Token> -> Scores, eos: Option<Token>,
                         drafts: seq<Token>, ghost cut: nat)
    returns (r: Option<Sequence>)
    requires ScoresOk(view.g, scores) && AlwaysOpen(view.g) && OnMaskedRun(view.g, scores, eos, q, cut)
    requires view.InSync(q.prompt, q.outputs[..cut]) && !q.IsFinished(eos) && |drafts| < MAX_ROLLBACK
    requires EndsAtEos(view.g, scores, q.prompt, eos)
    modifies view
    ensures r.None? ==> drafts != [] && FailsBehindEos(view.g, scores, q.prompt, q.outputs, drafts, eos)
    ensures r.Some? ==>
      var base := MaskedNext(view.g, scores, q.prompt, q.outputs);
      if drafts == [] then r.value == q.(outputs := q.outputs + [base], carry := None)
      else TookDrafts(q.(carry := Some(base)), r.value, [base] + drafts, |drafts|)
    ensures r.Some? ==>
      && OnMaskedRun(view.g, scores, eos, r.value, |r.value.outputs|) && q.outputs < r.value.outputs
      && r.value.prompt == q.prompt && r.value.Req() == q.Req()
      && (!r.value.IsFinished(eos) ==> view.InSync(q.prompt, r.value.outputs))
  {
    hide Walk, Argmax, Masked, MaskedNext, MaskedFrom, AlwaysOpen, EndsAtEos, DraftsPastEnd, FinishReason, Constrained, NoEos;
    var ids := q.prompt + q.outputs;
    assert q.prompt + q.outputs[..cut] <= ids && ids[|q.prompt|..] == q.outputs;
    view.Sync(ids, q.prompt, q.outputs[..cut]);
    var base;
    if q.carry.Some? { base := q.carry.value; } else { base := BasePick(view, scores, q.prompt, q.outputs); }
    if drafts == [] {
      CommitBase(view, q.prompt, q.outputs, base);
      var next := q.(outputs := q.outputs + [base], carry := None);
      OneConstrained(view.g, scores, q, base, eos);
      MaskedStep(view.g, scores, eos, q, cut, next, |next.outputs|);
      return Some(next);
    }
    r := VerifyDrafts(view, q, scores, eos, base, drafts, cut);
  }

  /** The drafted branch of such a step: verify in one pass, padded to the batch's width. */
  method VerifyDrafts(view: GrammarLogitsProcessor, q: Sequence, scores: seq<Token> -> Scores, eos: Option<Token>,
                      base: Token, drafts: seq<Token>, ghost cut: nat)
    returns (r: Option<Sequence>)
    requires ScoresOk(view.g, scores) && AlwaysOpen(view.g) && OnMaskedRun(view.g, scores, eos, q, cut)
    requires view.InSync(q.prompt, q.outputs) && !q.IsFinished(eos) && |drafts| < MAX_ROLLBACK
    requires EndsAtEos(view.g, scores, q.prompt, eos) && base == MaskedNext(view.g, scores, q.prompt, q.outputs)
    modifies view
    ensures r.None? ==> eos == Some(base) && UndoFailsFor(view.g, scores, q.prompt, q.outputs, [base] + drafts, eos)
    ensures r.Some? ==> TookDrafts(q.(carry := Some(base)), r.value, [base] + drafts, |drafts|)
    ensures r.Some? ==>
      && OnMaskedRun(view.g, scores, eos, r.value, |r.value.outputs|) && q.outputs < r.value.outputs
      && r.value.prompt == q.prompt && r.value.Req() == q.Req()
      && (!r.value.IsFinished(eos) ==> view.InSync(q.prompt, r.value.outputs))
  {
    hide Walk, Argmax, Masked, MaskedNext, MaskedFrom, AlwaysOpen, EndsAtEos, DraftsPastEnd, FinishReason, Constrained, NoEos,
         TookDrafts;
    var padding: seq<Token> := *;
    var ver := [base] + drafts + padding;
    var row := q.(carry := Some(base));
    Unstopped(q, eos);
    SameStop(q, row, eos);
    if eos != Some(base) { NeverPastEnd(view.g, scores, q.prompt, q.outputs, ver, |drafts|, eos); }
    UndoPrefix(view.g, scores, q.prompt, q.outputs, [base] + drafts, padding, eos);
    r := VerifyConstrainedRow(view, row, scores, ver, |drafts|, eos);
    if r.Some? {
      PaddingUnseen(row, r.value, [base] + drafts, padding);
      MaskedStep(view.g, scores, eos, q, cut, r.value, |r.value.outputs|);
      if eos == Some(base) { EosEnds(view.g, scores, q, base, r.value, eos); }
    }
  }

  /** A plain step keeps the row on the masked run. */
  lemma PlainMasked(g: Grammar, scores: seq<Token> -> Scores, eos: Option<Token>, q: Sequence, cut: nat)
    requires ScoresOk(g, scores) && OnMaskedRun(g, scores, eos, q, cut) && !q.IsFinished(eos) && q.carry.None?
    ensures OnMaskedRun(g, scores, eos, q.(outputs := q.outputs + [MaskedNext(g, scores, q.prompt, q.outputs)]),
                        |q.outputs|)
  {
    hide MaskedNext, MaskedFrom, Constrained, NoEos, FinishReason;
    var base := MaskedNext(g, scores, q.prompt, q.outputs);
    OneConstrained(g, scores, q, base, eos);
    MaskedStep(g, scores, eos, q, cut, q.(outputs := q.outputs + [base]), |q.outputs|);
  }

  lemma SameStop(q: Sequence, r: Sequence, eos: Option<Token>)
    requires r == q.(carry := r.carry)
    ensures r.IsFinished(eos) == q.IsFinished(eos)
  {
  }

  /** An unfinished row holds no EOS. */
  lemma Unstopped(q: Sequence, eos: Option<Token>)
    requires q.outputs != [] && !q.IsFinished(eos) && !q.ignoreEos && NoEos(Init(q.outputs), eos)
    ensures NoEos(q.outputs, eos)
  {
    forall j | 0 <= j < |q.outputs| ensures eos != Some(q.outputs[j]) {
      if j < |q.outputs| - 1 { assert Init(q.outputs)[j] == q.outputs[j]; }
    }
  }

  lemma OneConstrained(g: Grammar, scores: seq<Token> -> Scores, q: Sequence, base: Token, eos: Option<Token>)
    requires ScoresOk(g, scores) && base == MaskedNext(g, scores, q.prompt, q.outputs) && !q.IsFinished(eos)
    ensures Constrained(g, scores, q.prompt, q.outputs + [base], |q.outputs|) && |q.outputs| + 1 <= q.maxTokens
  {
    hide MaskedNext;
    assert (q.outputs + [base])[..|q.outputs|] == q.outputs;
  }

  /** An EOS base ends the row with it. */
  lemma EosEnds(g: Grammar, scores: seq<Token> -> Scores, q: Sequence, base: Token, r: Sequence, eos: Option<Token>)
    requires ScoresOk(g, scores) && eos == Some(base) == Some(MaskedNext(g, scores, q.prompt, q.outputs))
    requires q.outputs < r.outputs && Constrained(g, scores, q.prompt, r.outputs, |q.outputs|) && r.Req() == q.Req()
    requires !q.ignoreEos && forall j :: |q.outputs| <= j < |r.outputs| - 1 ==> eos != Some(r.outputs[j])
    ensures r.IsFinished(eos)
  {
    hide MaskedNext;
    assert r.outputs[..|q.outputs|] == q.outputs && r.outputs[|q.outputs|] == base;
    assert |r.outputs| == |q.outputs| + 1;
  }

  lemma FirstMasked(g: Grammar, scores: seq<Token> -> Scores, prompt: seq<Token>, row: Scores)
    requires ScoresOk(g, scores) && row == Masked(g, [], scores(prompt))
    ensures row != [] && Argmax(row) == MaskedNext(g, scores, prompt, []) && Walk(g, [], []) == []
  {
    hide Argmax;
    assert prompt + [] == prompt;
  }

  lemma RoomLeft(q: Sequence, eos: Option<Token>)
    requires !q.IsFinished(eos)
    ensures |q.outputs| < q.maxTokens
  {
  }

  lemma {:induction false} MaskedExtends(g: Grammar, scores: seq<Token> -> Scores, prompt: seq<Token>, maxTokens: nat,
                                         eos: Option<Token>, outs: seq<Token>)
    requires ScoresOk(g, scores)
    ensures outs <= MaskedFrom(g, scores, prompt, maxTokens, eos, outs)
    ensures !MaskedDone(maxTokens, eos, outs) ==> outs < MaskedFrom(g, scores, prompt, maxTokens, eos, outs)
    decreases if |outs| < maxTokens then maxTokens - |outs| else 0
  {
    hide MaskedNext;
    if !MaskedDone(maxTokens, eos, outs) {
      MaskedExtends(g, scores, prompt, maxTokens, eos, outs + [MaskedNext(g, scores, prompt, outs)]);
    }
  }

  /** The row stops exactly where masked decoding does. */
  lemma RunStops(g: Grammar, scores: seq<Token> -> Scores, eos: Option<Token>, q: Sequence, cut: nat)
    requires ScoresOk(g, scores) && OnMaskedRun(g, scores, eos, q, cut)
    ensures q.IsFinished(eos) == MaskedDone(q.maxTokens, eos, q.outputs)
    ensures
      var all := MaskedFrom(g, scores, q.prompt, q.maxTokens, eos, [MaskedNext(g, scores, q.prompt, [])]);
      if q.IsFinished(eos) then q.outputs == all else q.outputs < all
  {
    hide MaskedNext, Constrained;
    MaskedExtends(g, scores, q.prompt, q.maxTokens, eos, q.outputs);
  }

  /** A whole constrained request that is never preempted and never takes a plain step over a held
      carry. However plain and speculative steps alternate and whatever is drafted, it gets
      exactly what mask-then-argmax decoding gives, cut at the budget or at the first EOS. None is
      the matcher's undo error, possible only when drafts are verified behind an EOS base. */
  method ConstrainedRun(view: GrammarLogitsProcessor, prompt: seq<Token>, maxTokens: nat, maxLen: Option<nat>,
                        scores: seq<Token> -> Scores, eos: Option<Token>, specK: nat)
    returns (r: Option<seq<Token>>, ghost so: seq<Token>)
    requires view.seen == None && view.accepted == [] && specK < MAX_ROLLBACK
    requires ScoresOk(view.g, scores) && AlwaysOpen(view.g) && EndsAtEos(view.g, scores, prompt, eos)
    requires maxLen.Some? ==> |prompt| + maxTokens <= maxLen.value
    modifies view
    ensures r.Some? ==>
      r.value == MaskedFrom(view.g, scores, prompt, maxTokens, eos, [MaskedNext(view.g, scores, prompt, [])])
    ensures r.None? ==>
      && so < MaskedFrom(view.g, scores, prompt, maxTokens, eos, [MaskedNext(view.g, scores, prompt, [])])
      && MayGiveUp(view.g, scores, prompt, so, specK, eos)
  {
    hide Walk, Argmax, Masked, MaskedNext, MaskedFrom, AlwaysOpen, EndsAtEos, FinishReason, OnMaskedRun,
         FailsBehindEos, TookDrafts;
    so := [];
    var row := view.Call(prompt, scores(prompt), prompt, []);
    var q := NewSequence(prompt, maxTokens, false, maxLen).(outputs := [Argmax(row)]);
    FirstMasked(view.g, scores, prompt, row);
    MaskedStart(view.g, scores, eos, q);
    ghost var cut := 0;
    assert q.outputs[..0] == [];
    while !q.IsFinished(eos)
      invariant OnMaskedRun(view.g, scores, eos, q, cut) && q.prompt == prompt && q.maxTokens == maxTokens
      invariant cut <= |q.outputs| && (!q.IsFinished(eos) ==> view.InSync(prompt, q.outputs[..cut]))
      decreases maxTokens - |q.outputs|
    {
      so := q.outputs;
      RoomLeft(q, eos);
      var speculate: bool := *;
      if q.carry.None? && !speculate {
        ghost var was := q;
        q := PlainConstrained(view, q, scores, cut);
        PlainMasked(view.g, scores, eos, was, cut);
        cut := |was.outputs|;
        assert q.outputs[..cut] == was.outputs;
      } else {
        var drafts: seq<Token> := *;
        if |drafts| > specK { drafts := drafts[..specK]; }
        var next := SpecConstrained(view, q, scores, eos, drafts, cut);
        if next.None? {
          RunStops(view.g, scores, eos, q, cut);
          GivesUp(view.g, scores, prompt, so, drafts, specK, eos);
          return None, so;
        }
        q := next.value;
        cut := |q.outputs|;
        assert q.outputs[..cut] == q.outputs;
      }
    }
    r := Some(q.outputs);
    RunStops(view.g, scores, eos, q, cut);
  }
}
