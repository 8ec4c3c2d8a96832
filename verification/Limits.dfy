/** Where the engine's code leaves a request's own greedy run, and exactly when it does not. */
module Limits {
  import opened Options
  import opened Network
  import opened Greedy
  import opened Sequences
  import opened EngineRows

  /** A network whose greedy token is the number of tokens before it. */
  function Counting(): Net {
    Net(0, (t, p) => Hidden(p), (l, x, p) => KV(0), (l, x, p, kvs) => x, (h: Hidden) => h.bits + 1, KV(0))
  }

  lemma {:induction false} NoLayersRun(net: Net, xs: seq<Hidden>)
    requires net.numLayers == 0
    ensures DecodeRun(net, [], xs) == ([], xs)
  {
    if xs != [] {
      NoLayersRun(net, Init(xs));
      assert xs == Init(xs) + [Last(xs)];
    }
  }

  /** Without layers the greedy token depends on the last position alone. */
  lemma NoLayersNext(net: Net, toks: seq<Token>)
    requires net.numLayers == 0 && toks != []
    ensures Next(net, toks) == net.pick(net.embed(Last(toks), |toks| - 1))
  {
    NoLayersRun(net, Embedded(net, toks, 0));
    assert EmptyCache(net) == [];
    assert Last(Embedded(net, toks, 0)) == net.embed(Last(toks), |toks| - 1);
  }

  lemma CountingNext(toks: seq<Token>)
    requires toks != []
    ensures Next(Counting(), toks) == |toks|
  {
    NoLayersNext(Counting(), toks);
  }

  /** `[0]` continues as 1, 2, 3 when it is served alone. */
  /** A request of `[0]` that is done after three tokens and not before. */
  lemma CountingAlone(req: Request)
    requires req.prompt == [0] && Done(req, None, [1, 2, 3]) && !Done(req, None, [1]) && !Done(req, None, [1, 2])
    ensures Alone(Counting(), None, req) == [1, 2, 3]
  {
    hide Done;
    var net := Counting();
    CountingNext([0]);
    CountingNext(req.prompt + [1]);
    CountingNext(req.prompt + [1, 2]);
    assert [1] + [2] == [1, 2] && [1, 2] + [3] == [1, 2, 3];
    assert GreedyFrom(net, None, req, [1, 2, 3]) == [1, 2, 3];
    assert GreedyFrom(net, None, req, [1, 2]) == [1, 2, 3];
    assert GreedyFrom(net, None, req, [1]) == [1, 2, 3];
  }

  // ---- a carry across a plain step -----------------------------------------------

  /** A carry, if one is held, is the greedy token after everything fed. */
  ghost predicate CarryTrue(net: Net, q: Sequence)
    requires q.fold <= |q.outputs| && q.prompt != []
  {
    q.carry.Some? ==> q.carry.value == Next(net, q.Fed())
  }

  /** A network whose greedy token after `k` tokens is `all[k]`. */
  function Scripted(all: seq<Token>): Net {
    Net(0, (t, p) => Hidden(p), (l, x, p) => KV(0), (l, x, p, kvs) => x,
        (h: Hidden) => if 0 <= h.bits + 1 < |all| then all[h.bits + 1] else 0, KV(0))
  }

  lemma ScriptedNext(all: seq<Token>, toks: seq<Token>)
    requires 0 < |toks| < |all|
    ensures Next(Scripted(all), toks) == all[|toks|]
  {
    NoLayersNext(Scripted(all), toks);
  }

  /** The row after a plain decode step. */
  ghost function Plainly(net: Net, q: Sequence): Sequence
    requires q.fold <= |q.outputs| && q.prompt != []
  {
    DecodeStep(q, Next(net, q.Fed()))
  }

  /** The row after a speculative step in which nothing was drafted: a row without a carry is
      bootstrapped first. */
  ghost function Speculatively(net: Net, q: Sequence): Sequence
    requires q.fold <= |q.outputs| && q.prompt != []
  {
    NoDraftStep(if q.carry.Some? then q else q.(carry := Some(Next(net, q.Fed()))))
  }

  /** `q` is a row of this network on its own run that goes on after one more plain step. */
  ghost predicate OnItsWay(net: Net, eos: Option<Token>, q: Sequence) {
    && Pure(net, eos, Live, q) && q.exact && !q.stale && !q.IsFinished(eos)
    && !Plainly(net, q).IsFinished(eos)
  }

  /** A row without a carry: whatever the network, a plain step and a speculative one after it
      keep the row on its run. */
  lemma NoCarryStays(net: Net, eos: Option<Token>, q: Sequence)
    requires OnItsWay(net, eos, q) && q.carry.None?
    ensures OnTrack(net, eos, Speculatively(net, Plainly(net, q)))
  {
    hide FinishReason;
    var r := Plainly(net, q);
    GreedyStepOnTrack(net, eos, q, Next(net, q.Fed()));
    SameTrack(net, eos, q.(outputs := r.outputs), r);
    var s := r.(carry := Some(Next(net, r.Fed())));
    GreedyStepOnTrack(net, eos, r, s.carry.value);
    SameTrack(net, eos, r.(outputs := r.outputs + [s.carry.value]), NoDraftStep(s));
  }

  /** The continuation on which a held carry misleads: it is right now, and something else
      follows it. */
  function Misleading(q: Sequence): Net
    requires q.carry.Some?
  {
    Scripted(q.orig + q.outputs + [q.carry.value, q.carry.value + 1])
  }

  /** On its script the row's outputs are greedy. */
  lemma ScriptedTail(q: Sequence)
    requires q.carry.Some? && q.orig != []
    ensures GreedyTail(Misleading(q), q.orig + q.outputs, |q.orig|)
  {
    hide Scripted, Next;
    var all, toks := q.orig + q.outputs + [q.carry.value, q.carry.value + 1], q.orig + q.outputs;
    forall k | |q.orig| <= k < |toks| ensures toks[k] == Next(Misleading(q), toks[..k]) {
      ScriptedNext(all, toks[..k]);
    }
  }

  /** And its run passes through them. */
  lemma ScriptedTrack(net: Net, eos: Option<Token>, q: Sequence)
    requires OnTrack(net, eos, q) && q.carry.Some?
    ensures OnTrack(Misleading(q), eos, q)
  {
    hide Next, Done, GreedyFrom, Scripted;
    var script := Misleading(q);
    TrackPasses(net, eos, q);
    ScriptedTail(q);
    FirstOfTail(script, q.orig, q.outputs);
    StaysOnTrack(script, eos, q.Req(), q.outputs, 1);
  }

  lemma FirstOfTail(net: Net, prompt: seq<Token>, outs: seq<Token>)
    requires prompt != [] && outs != [] && GreedyTail(net, prompt + outs, |prompt|)
    ensures outs[..1] == [Next(net, prompt)] && GreedyTail(net, prompt + outs, |prompt| + 1)
  {
    hide Next, GreedyTail;
    TailAt(net, prompt, outs, 0);
    assert outs[..0] == [] && prompt + [] == prompt;
  }

  /** A row on its run has passed no stop. */
  lemma TrackPasses(net: Net, eos: Option<Token>, q: Sequence)
    requires OnTrack(net, eos, q)
    ensures forall j :: 1 <= j < |q.outputs| ==> !Done(q.Req(), eos, q.outputs[..j])
  {
    GreedyFromEnds(net, eos, q.Req(), q.outputs);
    GreedyFromEnds(net, eos, q.Req(), [Next(net, q.orig)]);
    var r := Alone(net, eos, q.Req());
    assert q.outputs <= r;
    forall j | 1 <= j < |q.outputs| ensures !Done(q.Req(), eos, q.outputs[..j]) {
      assert r[..j] == q.outputs[..j];
    }
  }

  lemma ScriptedWay(net: Net, eos: Option<Token>, q: Sequence)
    requires OnItsWay(net, eos, q) && q.carry.Some?
    ensures OnItsWay(Misleading(q), eos, q)
  {
    hide FinishReason;
    FoldedFed(q);
    ScriptedTrack(net, eos, q);
    ScriptedNext(q.orig + q.outputs + [q.carry.value, q.carry.value + 1], q.Fed());
  }

  /** On that script the stale carry leaves the run. */
  lemma CarryMisleads(net: Net, eos: Option<Token>, q: Sequence)
    requires OnItsWay(net, eos, q) && q.carry.Some?
    ensures
      var script := Misleading(q);
      OnItsWay(script, eos, q) && !OnTrack(script, eos, Speculatively(script, Plainly(script, q)))
  {
    hide FinishReason;
    var script, c := Misleading(q), q.carry.value;
    ScriptedWay(net, eos, q);
    var r := Plainly(script, q);
    var s := Speculatively(script, r);
    assert r.outputs == q.outputs + [c] && s.outputs == r.outputs + [c];
    GreedyStepOnTrack(script, eos, q, c);
    SameTrack(script, eos, q.(outputs := r.outputs), r);
    FoldedStops(r, eos);
    FoldedFed(r);
    assert r.Fed() == q.orig + q.outputs + [c];
    ScriptedNext(q.orig + q.outputs + [c, c + 1], r.Fed());
    RunsApart(script, eos, q.Req(), r.outputs, c);
  }

  /** Two continuations of one history by different tokens are different runs. */
  lemma RunsApart(net: Net, eos: Option<Token>, req: Request, outs: seq<Token>, c: Token)
    requires req.prompt != [] && !Done(req, eos, outs) && Next(net, req.prompt + outs) == c + 1
    ensures GreedyFrom(net, eos, req, outs) != GreedyFrom(net, eos, req, outs + [c])
  {
    hide Done, Next;
    GreedyFromEnds(net, eos, req, outs + [c + 1]);
    GreedyFromEnds(net, eos, req, outs + [c]);
    var run, off := GreedyFrom(net, eos, req, outs), GreedyFrom(net, eos, req, outs + [c]);
    assert run[|outs|] == (outs + [c + 1])[|outs|] == c + 1;
    assert off[|outs|] == (outs + [c])[|outs|] == c;
  }

  /** A plain step and a speculative one after it leave the row on its run. */
  ghost predicate StaysBound(net: Net, eos: Option<Token>, q: Sequence) {
    OnItsWay(net, eos, q) ==> OnTrack(net, eos, Speculatively(net, Plainly(net, q)))
  }

  /** A plain step does not clear a carry. A row survives a plain step followed by a speculative
      one under every network exactly when it holds no carry at the plain step: otherwise there is
      a network on which the row is on its run with a true carry and leaves it. */
  lemma PlainStepKeepsRun(net: Net, eos: Option<Token>, q: Sequence)
    requires OnItsWay(net, eos, q)
    ensures q.carry.None? <==> forall any: Net :: StaysBound(any, eos, q)
  {
    hide OnItsWay;
    if q.carry.None? {
      forall any: Net ensures StaysBound(any, eos, q) {
        if OnItsWay(any, eos, q) { NoCarryStays(any, eos, q); }
      }
    } else {
      CarryMisleads(net, eos, q);
      assert !StaysBound(Misleading(q), eos, q);
    }
  }

  /** A one-layer network that says 7 while every position it attends over was written, and 8
      once one was not. */
  function Wary(): Net {
    Net(1, (t, p) => Hidden(t), (l, x, p) => KV(1),
        (l, x, p, kvs: seq<KV>) => if KV(0) in kvs then Hidden(8) else Hidden(7), (h: Hidden) => h.bits, KV(0))
  }

  lemma WaryToken(cache: RowCache, x: Hidden)
    requires |cache| == 1
    ensures TokenRun(Wary(), 0, cache, x)
         == ([cache[0] + [KV(1)]], if KV(0) in cache[0] + [KV(1)] then Hidden(8) else Hidden(7))
  {
    var kvs := cache[0] + [KV(1)];
    assert cache[0 := kvs] == [kvs];
    assert TokenRun(Wary(), 1, [kvs], Wary().attend(0, x, |cache[0]|, kvs)) == ([kvs], Wary().attend(0, x, |cache[0]|, kvs));
  }

  lemma {:induction false} WaryRun(xs: seq<Hidden>)
    ensures KV(0) !in DecodeRun(Wary(), [[]], xs).0[0]
    ensures forall i :: 0 <= i < |xs| ==> DecodeRun(Wary(), [[]], xs).1[i] == Hidden(7)
  {
    if xs != [] {
      WaryRun(Init(xs));
      WaryToken(DecodeRun(Wary(), [[]], Init(xs)).0, Last(xs));
    }
  }

  lemma WaryNext(toks: seq<Token>)
    requires toks != []
    ensures Next(Wary(), toks) == 7
  {
    assert EmptyCache(Wary()) == [[]];
    WaryRun(Embedded(Wary(), toks, 0));
  }

  /** The row of `[0]` on that network, with its true carry. */
  function Repeating(): Sequence {
    NewSequence([0], 5, true, None).(status := Running, slot := Some(0), outputs := [7], length := 1, carry := Some(7))
  }

  lemma RepeatingWay()
    ensures OnItsWay(Wary(), None, Repeating()) && Next(Wary(), Repeating().Fed()) == 7
  {
    hide Next;
    var q := Repeating();
    WaryNext([0]);
    WaryNext(q.Fed());
    assert q.outputs[..0] == [] && q.orig + [] == q.orig && q.Fed() == [0, 7];
  }

  lemma RepeatingPlain()
    ensures
      var r := Plainly(Wary(), Repeating());
      r.outputs == [7, 7] && r.carry == Some(7) && r.stale && r.length == 2 && r.fold == 0 && !r.IsFinished(None)
    ensures OnTrack(Wary(), None, Plainly(Wary(), Repeating()))
  {
    hide Next, GreedyFrom;
    RepeatingWay();
    GreedyStepOnTrack(Wary(), None, Repeating(), 7);
    assert [7] + [7] == [7, 7];
    SameTrack(Wary(), None, Repeating().(outputs := [7, 7]), Plainly(Wary(), Repeating()));
  }

  lemma RepeatingStale()
    ensures
      var r := Speculatively(Wary(), Plainly(Wary(), Repeating()));
      && OnTrack(Wary(), None, r) && r.outputs == [7, 7, 7] && r.spoiled && r.length == 3
      && Next(Wary(), r.Fed()) == 7
  {
    hide Next, GreedyFrom, DecodeStep;
    RepeatingPlain();
    var r := Plainly(Wary(), Repeating());
    var s := Speculatively(Wary(), r);
    WaryNext(r.Fed());
    GreedyStepOnTrack(Wary(), None, r, 7);
    assert [7, 7] + [7] == [7, 7, 7];
    SameTrack(Wary(), None, r.(outputs := [7, 7, 7]), s);
    WaryNext(s.Fed());
  }

  /** A pass over one more token sees the position that was never written. */
  lemma HoleSeen()
    ensures Wary().pick(DecodeRun(Wary(), [[KV(1), KV(1), Wary().blank]], Embedded(Wary(), [7], 3)).1[0]) == 8
  {
    var xs := Embedded(Wary(), [7], 3);
    WaryToken([[KV(1), KV(1), KV(0)]], xs[0]);
    assert Init(xs) == [] && Last(xs) == xs[0];
  }

  /** A network that repeats the token hides the stale carry in the tokens, not in the cache. The
      plain step writes position 1 and the carry is committed for position 3, so position 2 is
      never written: the outputs still agree, and the step after attends over the hole. */
  lemma RepeatedTokenTears()
    ensures
      var r := Speculatively(Wary(), Plainly(Wary(), Repeating()));
      && OnItsWay(Wary(), None, Repeating()) && OnTrack(Wary(), None, r) && r.outputs == [7, 7, 7]
      && r.spoiled && r.length == 3 && Next(Wary(), r.Fed()) == 7
      && Wary().pick(DecodeRun(Wary(), [[KV(1), KV(1), Wary().blank]], Embedded(Wary(), [7], 3)).1[0]) == 8
  {
    hide OnItsWay, Speculatively, Plainly, Next, DecodeRun;
    RepeatingWay();
    RepeatingStale();
    HoleSeen();
  }

  /** The row of `[0]` after its first token and a speculative step's carry. */
  function Carrying(): Sequence {
    NewSequence([0], 3, true, None).(status := Running, slot := Some(0), outputs := [1], length := 1, carry := Some(2))
  }

  /** One plain step over that row, then a speculative step without drafts: the carry is
      emitted twice. */
  lemma StaleCarryEmitted()
    ensures Pure(Counting(), None, Live, Carrying()) && CarryTrue(Counting(), Carrying())
    ensures
      var r := DecodeStep(Carrying(), Next(Counting(), Carrying().Fed()));
      r.carry.Some? && NoDraftStep(r).outputs == [1, 2, 2]
    ensures Alone(Counting(), None, Carrying().Req()) == [1, 2, 3]
  {
    var q := Carrying();
    CountingNext([0]);
    CountingNext(q.Fed());
    assert q.Fed() == [0, 1];
    CountingAlone(q.Req());
    assert q.outputs[..0] == [] && q.orig + [] == q.orig;
    assert [1] + [2] == [1, 2] && [1, 2] + [2] == [1, 2, 2];
  }

  // ---- preemption twice ----------------------------------------------------------

  /** Preemption folds every output into the prompt, also those folded before: the context to
      recompute is the sequence's own history exactly when nothing was folded yet. */
  lemma PreemptRebuildsContext(q: Sequence)
    requires Folded(q)
    ensures Preempt(q).prompt == q.orig + q.outputs <==> q.fold == 0
  {
    if q.fold == 0 {
      assert q.outputs[..0] == [] && q.orig + [] == q.orig;
    } else {
      assert |Preempt(q).prompt| == |q.orig| + q.fold + |q.outputs|;
    }
  }

  /** `[0]` preempted after its first token, readmitted, and preempted after its second. */
  function PreemptedTwice(): Sequence {
    var q := Carrying().(carry := None);
    Preempt(Prefilled(Preempt(q), 2))
  }

  lemma SecondPreemptionRepeats()
    ensures PreemptedTwice().prompt == [0, 1, 1, 2]
    ensures Prefilled(PreemptedTwice(), Next(Counting(), PreemptedTwice().prompt)).outputs == [1, 2, 4]
    ensures Alone(Counting(), None, PreemptedTwice().Req()) == [1, 2, 3]
  {
    CountingAlone(PreemptedTwice().Req());
    assert [0] + [1] == [0, 1] && [0, 1] + [1, 2] == [0, 1, 1, 2] && [1] + [2] == [1, 2] && [1, 2] + [4] == [1, 2, 4];
    CountingNext(PreemptedTwice().prompt);
  }

  // ---- the window ----------------------------------------------------------------

  /** None of the `m` tokens a step emits comes after a stopping point of the request. */
  ghost predicate Inside(q: Sequence, eos: Option<Token>, acc: seq<Token>, m: nat)
    requires m <= |acc|
  {
    forall j :: 0 <= j < m ==> !Done(q.Req(), eos, q.outputs + acc[..j])
  }

  /** A step that emits `m` tokens is inside exactly when the first `m - 1` leave the window open. */
  lemma EmitsInside(q: Sequence, eos: Option<Token>, acc: seq<Token>, m: nat)
    requires Folded(q) && q.fold == 0 && !q.IsFinished(eos) && acc != [] && EmitCount(q, eos, acc, m)
    ensures Inside(q, eos, acc, m) <==> (q.maxLen.Some? ==> |q.prompt| + |q.outputs| + m <= q.maxLen.value)
  {
    assert q.outputs[..0] == [] && q.orig + [] == q.orig;
    if q.maxLen.Some? && |q.prompt| + |q.outputs| + m > q.maxLen.value {
      assert Done(q.Req(), eos, q.outputs + acc[..m - 1]);
    } else {
      forall j | 0 <= j < m ensures !Done(q.Req(), eos, q.outputs + acc[..j]) {
        NotDoneBefore(q, eos, acc, m, j);
      }
    }
  }

  /** How many tokens a step with `k` drafts may emit at most. */
  function MostEmitted(q: Sequence, k: nat): int {
    if k + 1 <= q.maxTokens - |q.outputs| then k + 1 else q.maxTokens - |q.outputs|
  }

  ghost predicate AlwaysInside(q: Sequence, eos: Option<Token>, k: nat) {
    forall acc: seq<Token>, m: nat :: 0 < |acc| <= k + 1 && EmitCount(q, eos, acc, m) ==> Inside(q, eos, acc, m)
  }

  /** Trimming a speculative step looks at the token budget and at the EOS, not at the window.
      Whatever is drafted and accepted, a step with `k` drafts stays within what plain decoding
      would emit if and only if the window has room for the most it may emit. */
  lemma WindowOverrun(q: Sequence, eos: Option<Token>, k: nat)
    requires Folded(q) && q.fold == 0 && !q.IsFinished(eos)
    ensures AlwaysInside(q, eos, k)
       <==> (q.maxLen.Some? ==> |q.prompt| + |q.outputs| + MostEmitted(q, k) <= q.maxLen.value)
  {
    hide Inside, Done;
    var most := MostEmitted(q, k);
    if q.maxLen.Some? && |q.prompt| + |q.outputs| + most > q.maxLen.value {
      var tok := if eos.Some? then eos.value + 1 else 0;
      var acc := seq(k + 1, _ => tok);
      assert EmitCount(q, eos, acc, most);
      EmitsInside(q, eos, acc, most);
    } else {
      forall acc: seq<Token>, m: nat | 0 < |acc| <= k + 1 && EmitCount(q, eos, acc, m) ensures Inside(q, eos, acc, m) {
        EmitsInside(q, eos, acc, m);
      }
    }
  }

  /** `[0]` with one token generated in a window of three: a step may still emit three tokens,
      although plain decoding is done after the first of them. */
  lemma WindowOverrunEmitted()
    ensures
      var q := NewSequence([0], 5, true, Some(3)).(outputs := [1]);
      !q.IsFinished(None) && EmitCount(q, None, [2, 3, 4], 3) && Done(q.Req(), None, q.outputs + [2])
  {
    var q := NewSequence([0], 5, true, Some(3)).(outputs := [1]);
    assert |q.outputs + [2]| == 2;
  }

  /** Folding moves outputs into the prompt and keeps them, so the window counts them twice. The
      engine's stop and the request's own agree exactly outside the band this opens. */
  lemma FoldedWindow(q: Sequence, eos: Option<Token>)
    requires q.fold <= |q.outputs| && |q.prompt| == |q.orig| + q.fold
    ensures
      (q.IsFinished(eos) <==> Done(q.Req(), eos, q.outputs))
      <==> !(q.maxLen.Some? && |q.orig| + |q.outputs| < q.maxLen.value <= |q.orig| + q.fold + |q.outputs|
             && !FinishReason(|q.orig|, q.maxTokens, q.ignoreEos, None, eos, q.outputs).Some?)
  {
  }

  /** `[0]` in a window of four, preempted after its first token and readmitted: the engine stops it
      with its second token, and the request wanted a third. */
  function Readmitted(): Sequence {
    var q := NewSequence([0], 5, true, Some(4)).(status := Running, slot := Some(0), outputs := [1], length := 1);
    Prefilled(Preempt(q), 2)
  }

  lemma FoldedWindowCuts()
    ensures
      var q := Readmitted();
      && q.outputs == [1, 2] && Next(Counting(), [0, 1]) == 2 && q.IsFinished(None)
      && !Done(q.Req(), None, q.outputs) && Alone(Counting(), None, q.Req()) == [1, 2, 3]
  {
    CountingNext([0, 1]);
    assert [1] + [2] == [1, 2];
    CountingAlone(Readmitted().Req());
  }
}
