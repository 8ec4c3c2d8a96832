/** A request's state inside the engine. The fields after `carry` are history: the prompt the
    client sent, how many outputs the last preemption folded into `prompt`, whether a held
    carry went stale, whether a consumed stale carry left a hole in the slot's K/V, how often
    the sequence was preempted, whether it was ever fed a stale carry, whether a verify pass
    ever accepted for it, and whether its output is still bound to the request's own run. */
module Sequences {
  import opened Options
  import opened Network
  import opened Greedy

  datatype Status = Waiting | Running | Finished

  datatype Sequence = Sequence(
    prompt: seq<Token>,
    maxTokens: nat,
    ignoreEos: bool,
    maxLen: Option<nat>,
    status: Status,
    slot: Option<nat>,
    outputs: seq<Token>,
    length: nat,
    matched: nat,
    carry: Option<Token>,
    orig: seq<Token>,
    fold: nat,
    stale: bool,
    spoiled: bool,
    preempts: nat,
    misfed: bool,
    verified: bool,
    exact: bool
  ) {
    function LastToken(): Token
      requires prompt != []
    {
      if outputs != [] then Last(outputs) else Last(prompt)
    }

    predicate IsFinished(eos: Option<Token>) {
      FinishReason(|prompt|, maxTokens, ignoreEos, maxLen, eos, outputs).Some?
    }

    predicate Stops(eos: Option<Token>, tok: Token) {
      eos == Some(tok) && !ignoreEos
    }

    function Req(): Request {
      Request(orig, maxTokens, ignoreEos, maxLen)
    }

    /** The tokens the model has been fed or is about to be fed for this sequence. */
    function Fed(): seq<Token>
      requires fold <= |outputs|
    {
      prompt + outputs[fold..]
    }
  }

  function NewSequence(prompt: seq<Token>, maxTokens: nat, ignoreEos: bool, maxLen: Option<nat>): Sequence {
    Sequence(prompt, maxTokens, ignoreEos, maxLen, Waiting, None, [], 0, 0, None, prompt, 0, false, false, 0,
             false, false, true)
  }

  /** The prompt is the client's plus the folded outputs, and a window cannot end the request
      earlier than it would have ended without the fold. */
  ghost predicate Folded(q: Sequence) {
    && q.fold <= |q.outputs| && q.prompt == q.orig + q.outputs[..q.fold] && q.orig != []
    && (q.fold > 0 && q.maxLen.Some? ==> |q.prompt| + q.maxTokens <= q.maxLen.value)
  }

  /** The outputs lie on the run the request would have alone. */
  ghost predicate OnTrack(net: Net, eos: Option<Token>, q: Sequence) {
    Folded(q) && q.outputs != []
    && GreedyFrom(net, eos, q.Req(), q.outputs) == Alone(net, eos, q.Req())
  }

  /** Nothing that can unbind a sequence from its run has happened to it: at most one
      preemption, no stale carry consumed, and no way past its window. A plain step never passes
      the window; a verify pass or a fold does not if the window has room for the whole
      request, counted twice if its outputs were folded into the prompt. */
  predicate Faithful(q: Sequence) {
    && q.preempts <= 1 && !q.misfed
    && (q.maxLen.Some? ==>
          || (q.preempts == 0 && !q.verified)
          || |q.orig| + (if q.preempts == 0 then q.maxTokens else 2 * q.maxTokens) <= q.maxLen.value)
  }

  /** Only such an event unbinds a sequence. */
  ghost predicate Excused(q: Sequence) {
    && (q.preempts == 0 ==> q.fold == 0) && (q.preempts <= 1 ==> |q.prompt| == |q.orig| + q.fold)
    && q.fold <= |q.outputs| && (Faithful(q) ==> q.exact)
    && (q.exact ==> !q.spoiled) && (q.spoiled ==> q.misfed)
  }

  /** What a gate that never changes its mind guarantees: no carry ever goes stale, and with
      speculation off there is none and nothing is verified. */
  predicate Calm(speculates: bool, q: Sequence) {
    !q.stale && !q.misfed && (!speculates ==> q.carry.None? && !q.verified)
  }

  lemma FoldedFed(q: Sequence)
    requires Folded(q)
    ensures q.Fed() == q.orig + q.outputs
  {
  }

  /** Whether folded or not, the engine stops such a sequence exactly where it should stop. */
  lemma FoldedStops(q: Sequence, eos: Option<Token>)
    requires Folded(q)
    ensures q.IsFinished(eos) == Done(q.Req(), eos, q.outputs)
  {
  }

  /** One greedy token keeps an unfinished sequence on its run. */
  lemma GreedyStepOnTrack(net: Net, eos: Option<Token>, q: Sequence, tok: Token)
    requires OnTrack(net, eos, q) && !q.IsFinished(eos) && tok == Next(net, q.Fed())
    ensures OnTrack(net, eos, q.(outputs := q.outputs + [tok]))
  {
    FoldedFed(q);
    FoldedStops(q, eos);
    var q' := q.(outputs := q.outputs + [tok]);
    assert q'.outputs[..q.fold] == q.outputs[..q.fold];
  }

  /** The first token, from the prompt alone or from a recomputed context. */
  lemma FirstTokenOnTrack(net: Net, eos: Option<Token>, q: Sequence, tok: Token)
    requires Folded(q) && q.fold == |q.outputs| && tok == Next(net, q.prompt)
    requires q.outputs == [] || (OnTrack(net, eos, q) && !q.IsFinished(eos))
    ensures OnTrack(net, eos, q.(outputs := q.outputs + [tok]))
  {
    FoldedFed(q);
    var q' := q.(outputs := q.outputs + [tok]);
    if q.outputs == [] {
      assert q.orig + [] == q.orig;
      assert q'.outputs[..0] == [] && [] + [tok] == [tok];
    } else {
      assert q.outputs[q.fold..] == [] && q.prompt + [] == q.prompt;
      GreedyStepOnTrack(net, eos, q, tok);
    }
  }

  // ---- speculative acceptance ----------------------------------------------------

  /** How many drafts survive: the longest prefix of the real drafts that equals the truth. */
  ghost predicate AcceptCount(ver: seq<Token>, truth: seq<Token>, actual: nat, n: nat)
    requires |ver| == |truth| && actual < |ver|
  {
    && n <= actual
    && (forall t :: 0 <= t < n ==> ver[t + 1] == truth[t])
    && (n < actual ==> ver[n + 1] != truth[n])
  }

  /** `m` of the `n` accepted tokens are emitted: all of them, unless the budget or an EOS
      comes first. */
  ghost predicate EmitCount(q: Sequence, eos: Option<Token>, acc: seq<Token>, m: nat)
    requires acc != []
  {
    && 1 <= m <= |acc|
    && (|q.outputs| + m <= q.maxTokens || m == 1)
    && (forall j :: 0 <= j < m - 1 ==> !q.Stops(eos, acc[j]))
    && (m < |acc| ==> q.Stops(eos, acc[m - 1]) || |q.outputs| + m >= q.maxTokens)
  }

  /** Trim what a step emits to the token budget and to the first EOS. */
  method TruncateEmit(q: Sequence, eos: Option<Token>, acc: seq<Token>) returns (emit: seq<Token>)
    requires acc != []
    ensures |emit| <= |acc| && emit == acc[..|emit|] && EmitCount(q, eos, acc, |emit|)
  {
    var remaining := q.maxTokens - |q.outputs|;
    emit := acc;
    if remaining < |emit| {
      emit := emit[..if remaining > 1 then remaining else 1];
    }
    assert emit == acc[..|emit|];
    if eos.Some? && !q.ignoreEos {
      for i := 0 to |emit|
        invariant forall j :: 0 <= j < i ==> emit[j] != eos.value
      {
        if emit[i] == eos.value {
          assert forall j :: 0 <= j < i ==> !q.Stops(eos, acc[j]);
          return emit[..i + 1];
        }
      }
    }
  }

  /** What one accepted row turns `q` into: `m` of its `n + 1` accepted tokens are emitted, and
      the true token after them is carried unless the row is over. Consuming a stale carry or
      overrunning the window unbinds the row from its run. */
  ghost predicate Accepted(q: Sequence, eos: Option<Token>, ver: seq<Token>, truth: seq<Token>, actual: nat,
                           r: Sequence, n: nat, m: nat) {
    && |ver| == |truth| && actual < |ver|
    && AcceptCount(ver, truth, actual, n) && EmitCount(q, eos, ver[..n + 1], m)
    && var out := q.(outputs := q.outputs + ver[..m], length := q.length + m);
       var over := m < n + 1 || out.IsFinished(eos);
       r == Committed(q, ver[..m], if over then None else Some(truth[n]))
  }

  /** The sequence after a speculative step that emitted `emit` and carries `next`. */
  function Committed(q: Sequence, emit: seq<Token>, next: Option<Token>): Sequence {
    q.(outputs := q.outputs + emit, length := q.length + |emit|, carry := next, stale := false,
       spoiled := q.spoiled || q.stale, misfed := q.misfed || q.stale, verified := true,
       exact := q.exact && !q.stale && (q.maxLen.Some? ==> |q.prompt| + |q.outputs| + |emit| <= q.maxLen.value))
  }

  /** The longest prefix of the real drafts that equals the truth. */
  method MatchDrafts(ver: seq<Token>, truth: seq<Token>, actual: nat) returns (acc: nat)
    requires |ver| == |truth| && actual < |ver|
    ensures acc <= actual && AcceptCount(ver, truth, actual, acc)
  {
    acc := 0;
    while acc < actual && ver[acc + 1] == truth[acc]
      invariant acc <= actual
      invariant forall t :: 0 <= t < acc ==> ver[t + 1] == truth[t]
    {
      acc := acc + 1;
    }
  }

  /** Accept the longest matching draft prefix of one verified row, emit its surviving part,
      and carry the true token after it unless the row is over. */
  method AcceptRow(q: Sequence, eos: Option<Token>, ver: seq<Token>, truth: seq<Token>, actual: nat)
    returns (r: Sequence, n: nat, m: nat)
    requires |ver| == |truth| && actual < |ver|
    ensures Accepted(q, eos, ver, truth, actual, r, n, m)
  {
    hide FinishReason, EmitCount, AcceptCount, Committed;
    n := MatchDrafts(ver, truth, actual);
    var accepted := ver[..n + 1];
    var emit := TruncateEmit(q, eos, accepted);
    m := |emit|;
    assert emit == ver[..m];
    var out := q.(outputs := q.outputs + emit, length := q.length + m);
    var truncated := m < |accepted| || out.IsFinished(eos);
    r := Committed(q, emit, if truncated then None else Some(truth[n]));
  }

  /** Every accepted token is greedy, whatever the drafts were, and so is the next base. */
  lemma AcceptedIsGreedy(net: Net, ctx: seq<Token>, ver: seq<Token>, truth: seq<Token>, actual: nat, n: nat)
    requires ctx != [] && |ver| == |truth| && actual < |ver|
    requires ver[0] == Next(net, ctx)
    requires forall t :: 0 <= t < |ver| ==> truth[t] == Next(net, ctx + ver[..t + 1])
    requires AcceptCount(ver, truth, actual, n)
    ensures GreedyTail(net, ctx + ver[..n + 1], |ctx|)
    ensures truth[n] == Next(net, ctx + ver[..n + 1])
  {
    var all := ctx + ver[..n + 1];
    forall k | |ctx| <= k < |all| ensures all[k] == Next(net, all[..k]) {
      var t := k - |ctx|;
      assert all[..k] == ctx + ver[..t];
      if t == 0 {
        assert ctx + ver[..0] == ctx;
      } else {
        assert ver[(t - 1) + 1] == truth[t - 1];
      }
    }
  }

  /** A speculative step, with any drafts, leaves an on-track sequence on track. */
  lemma SpecStepOnTrack(net: Net, eos: Option<Token>, q: Sequence, acc: seq<Token>, m: nat)
    requires OnTrack(net, eos, q) && !q.IsFinished(eos) && acc != [] && EmitCount(q, eos, acc, m)
    requires GreedyTail(net, q.Fed() + acc, |q.Fed()|)
    requires q.maxLen.Some? ==> |q.prompt| + |q.outputs| + m <= q.maxLen.value
    ensures OnTrack(net, eos, q.(outputs := q.outputs + acc[..m]))
  {
    hide FinishReason, GreedyFrom, Next;
    var outs := q.outputs + acc[..m];
    assert outs[..q.fold] == q.outputs[..q.fold];
    EmittedTail(net, q.Fed(), acc, m);
    FoldedFed(q);
    assert q.orig + outs == q.Fed() + acc[..m];
    EmittedOnTrack(net, eos, q, acc, m, outs);
  }

  lemma EmittedOnTrack(net: Net, eos: Option<Token>, q: Sequence, acc: seq<Token>, m: nat, outs: seq<Token>)
    requires Folded(q) && !q.IsFinished(eos) && acc != [] && EmitCount(q, eos, acc, m)
    requires q.maxLen.Some? ==> |q.prompt| + |q.outputs| + m <= q.maxLen.value
    requires outs == q.outputs + acc[..m]
    requires GreedyTail(net, q.orig + outs, |q.orig| + |q.outputs|)
    ensures GreedyFrom(net, eos, q.Req(), outs) == GreedyFrom(net, eos, q.Req(), q.outputs)
  {
    forall j | |q.outputs| <= j < |outs| ensures !Done(q.Req(), eos, outs[..j]) {
      assert outs[..j] == q.outputs + acc[..j - |q.outputs|];
      NotDoneBefore(q, eos, acc, m, j - |q.outputs|);
    }
    assert outs[..|q.outputs|] == q.outputs;
    StaysOnTrack(net, eos, q.Req(), outs, |q.outputs|);
  }

  lemma EmittedTail(net: Net, ctx: seq<Token>, acc: seq<Token>, m: nat)
    requires m <= |acc| && GreedyTail(net, ctx + acc, |ctx|)
    ensures GreedyTail(net, ctx + acc[..m], |ctx|)
  {
    var all := ctx + acc[..m];
    forall k | |ctx| <= k < |all| ensures all[k] == Next(net, all[..k]) {
      assert all[..k] == (ctx + acc)[..k];
    }
  }

  /** No stopping point lies strictly inside what a step emits. */
  lemma NotDoneBefore(q: Sequence, eos: Option<Token>, acc: seq<Token>, m: nat, j: nat)
    requires Folded(q) && !q.IsFinished(eos) && acc != [] && EmitCount(q, eos, acc, m) && j < m
    requires q.maxLen.Some? ==> |q.prompt| + |q.outputs| + m <= q.maxLen.value
    ensures !Done(q.Req(), eos, q.outputs + acc[..j])
  {
    FoldedStops(q, eos);
    if j == 0 {
      assert q.outputs + acc[..0] == q.outputs;
    } else {
      assert Last(q.outputs + acc[..j]) == acc[j - 1];
    }
  }

  lemma AcceptedBounds(q: Sequence, eos: Option<Token>, ver: seq<Token>, truth: seq<Token>, actual: nat,
                       r: Sequence, n: nat, m: nat)
    requires Accepted(q, eos, ver, truth, actual, r, n, m)
    ensures 1 <= m <= n + 1 <= |ver|
  {
  }

  /** A verified row that fits its window stays inside it. */
  lemma AcceptedExcused(q: Sequence, eos: Option<Token>, ver: seq<Token>, truth: seq<Token>, actual: nat,
                        r: Sequence, n: nat, m: nat)
    requires Accepted(q, eos, ver, truth, actual, r, n, m) && Excused(q) && !q.IsFinished(eos)
    ensures Excused(r)
  {
    hide AcceptCount;
    AcceptedBounds(q, eos, ver, truth, actual, r, n, m);
    assert |q.outputs| < q.maxTokens && |r.outputs| == |q.outputs| + m;
  }
}
