/** The diffusion unmasking loop: a block of masks is filled in a fixed number of steps, the
    most confident positions first. */
module Diffusion {
  import opened Lists
  import opened Network

  /** What the model says after a forward pass over the whole sequence: the best token at a
      position, how confident it is, and a token drawn there. */
  datatype Denoiser = Denoiser(best: (seq<Token>, nat) -> Token, confidence: (seq<Token>, nat) -> real,
                               sample: (seq<Token>, nat) -> Token)

  function Floor(m: nat, t: nat): nat
    requires t >= 1
  {
    m / t
  }

  function Ceil(m: nat, t: nat): nat
    requires t >= 1
  {
    (m + t - 1) / t
  }

  /** How many positions a step unmasks. */
  function Quota(remaining: nat, stepsLeft: nat): (r: nat)
    requires remaining >= 1 && stepsLeft >= 1
    ensures 1 <= r <= remaining
  {
    var share := remaining / stepsLeft;
    ShareFits(remaining, stepsLeft);
    var n := if share > 1 then share else 1;
    if n < remaining then n else remaining
  }

  lemma {:induction false} TimesAtLeast(q: nat, left: nat)
    requires left >= 1
    ensures q * left >= q
  {
    if left > 1 {
      TimesAtLeast(q, left - 1);
      MulLess(q, left);
    }
  }

  lemma ShareFits(r: nat, left: nat)
    requires left >= 1
    ensures r / left <= r && r == r / left * left + r % left && 0 <= r % left < left
  {
    var q, rem := r / left, r % left;
    assert r == q * left + rem;
    TimesAtLeast(q, left);
  }

  /** The masks left are neither too many nor too few for the steps left. */
  predicate OnSchedule(remaining: nat, left: nat, f: nat, c: nat) {
    f * left <= remaining <= c * left
  }

  lemma MulGrows(a: nat, b: nat, left: nat)
    requires a <= b
    ensures a * left <= b * left
  {
    assert (b - a) * left >= 0;
  }

  lemma MulCancel(a: nat, b: nat, left: nat)
    requires left >= 1 && a * left < b * left + left
    ensures a <= b
  {
    if a > b {
      MulGrows(b + 1, a, left);
    }
  }

  lemma MulLess(a: nat, left: nat)
    requires left >= 1
    ensures a * left == a * (left - 1) + a
  {
  }

  /** One step's quota lies within the bounds and keeps the schedule. */
  lemma QuotaKeepsSchedule(remaining: nat, left: nat, f: nat, c: nat)
    requires remaining >= 1 && left >= 1 && OnSchedule(remaining, left, f, c) && f <= c <= f + 1 && c >= 1
    ensures
      var n := Quota(remaining, left);
      && (if f > 1 then f else 1) <= n <= c
      && OnSchedule(remaining - n, left - 1, f, c)
  {
    hide OnSchedule, Quota;
    var q, rem := remaining / left, remaining % left;
    ShareFits(remaining, left);
    QuotaShare(remaining, left, q);
    ShareBounds(remaining, left, f, c, q, rem);
    if q == 0 {
      LastOnes(remaining, left, f, c);
    } else {
      ShareSchedule(remaining, left, f, c, q, rem);
    }
  }

  lemma QuotaShare(remaining: nat, left: nat, q: nat)
    requires remaining >= 1 && left >= 1 && q == remaining / left
    ensures Quota(remaining, left) == if q == 0 then 1 else q
  {
    ShareFits(remaining, left);
  }

  /** Fewer masks than steps are left: one for each step, as long as they last. */
  lemma LastOnes(remaining: nat, left: nat, f: nat, c: nat)
    requires 1 <= remaining < left && f == 0 && c == 1
    ensures OnSchedule(remaining - 1, left - 1, f, c)
  {
  }

  lemma ShareBounds(remaining: nat, left: nat, f: nat, c: nat, q: nat, rem: nat)
    requires left >= 1 && OnSchedule(remaining, left, f, c) && remaining == q * left + rem && rem < left
    ensures f <= q <= c
  {
    MulCancel(f, q, left);
    MulCancel(q, c, left);
  }

  lemma ShareSchedule(remaining: nat, left: nat, f: nat, c: nat, q: nat, rem: nat)
    requires left >= 1 && OnSchedule(remaining, left, f, c) && remaining == q * left + rem && rem < left && f <= q <= c
    ensures q <= remaining && OnSchedule(remaining - q, left - 1, f, c)
  {
    MulLess(q, left);
    MulGrows(f, q, left - 1);
    if q < c {
      MulGrows(q + 1, c, left - 1);
      assert (q + 1) * (left - 1) == q * (left - 1) + (left - 1);
    }
  }

  lemma StartsOnSchedule(m: nat, t: nat)
    requires t >= 1
    ensures OnSchedule(m, t, Floor(m, t), Ceil(m, t))
    ensures Floor(m, t) <= Ceil(m, t) <= Floor(m, t) + 1 && (m >= 1 ==> Ceil(m, t) >= 1)
  {
    ShareFits(m, t);
    ShareFits(m + t - 1, t);
    var f, c := m / t, (m + t - 1) / t;
    MulCancel(f, c, t);
    assert (f + 1) * t == f * t + t;
    MulCancel(c, f + 1, t);
    if m >= 1 { MulCancel(1, c, t); }
  }

  // ---- what a run of steps means --------------------------------------------------

  /** The `top` positions get the best tokens for the sequence the model saw; the others stay. */
  function Filled(ids: seq<Token>, top: seq<nat>, d: Denoiser): (r: seq<Token>)
    ensures |r| == |ids|
  {
    seq(|ids|, p requires 0 <= p < |ids| => if p in top then d.best(ids, p) else ids[p])
  }

  /** Every masked position gets the token drawn there; the others stay. */
  function Drawn(ids: seq<Token>, masked: set<nat>, d: Denoiser): (r: seq<Token>)
    ensures |r| == |ids|
  {
    seq(|ids|, p requires 0 <= p < |ids| => if p in masked then d.sample(ids, p) else ids[p])
  }

  /** The sequence after `steps`, each a list of positions filled from one forward pass. */
  function After(start: seq<Token>, steps: seq<seq<nat>>, d: Denoiser): (r: seq<Token>)
    ensures |r| == |start|
  {
    if steps == [] then start else Filled(After(start, Init(steps), d), Last(steps), d)
  }

  /** The positions still masked after `steps`. */
  function Remaining(steps: seq<seq<nat>>, from: nat, total: nat): set<nat>
    requires from <= total
  {
    if steps == [] then Range(from, total) else Remaining(Init(steps), from, total) - Elements(Last(steps))
  }

  /** How many positions `steps` fill. */
  function Total(steps: seq<seq<nat>>): nat {
    if steps == [] then 0 else Total(Init(steps)) + |Last(steps)|
  }

  /** Different masked positions, none less confident than a masked one left out. */
  ghost predicate MostConfident(top: seq<nat>, masked: set<nat>, ids: seq<Token>, d: Denoiser) {
    && (forall i :: 0 <= i < |top| ==> top[i] in masked) && NoDup(top)
    && forall i, q :: 0 <= i < |top| && q in masked && q !in top ==> d.confidence(ids, q) <= d.confidence(ids, top[i])
  }

  /** Every step filled the most confident positions still masked, by what the model said about
      the sequence the steps before it left. */
  ghost predicate Unmasked(start: seq<Token>, steps: seq<seq<nat>>, from: nat, d: Denoiser)
    requires from <= |start|
  {
    steps == []
    || (Unmasked(start, Init(steps), from, d)
        && MostConfident(Last(steps), Remaining(Init(steps), from, |start|), After(start, Init(steps), d), d))
  }

  /** What is masked after some steps was masked before any of them. */
  lemma {:induction false} RemainingShrinks(steps: seq<seq<nat>>, s: nat, from: nat, total: nat)
    requires from <= total && s <= |steps|
    ensures Remaining(steps, from, total) <= Remaining(steps[..s], from, total)
    ensures s < |steps| ==> forall p :: p in steps[s] ==> p !in Remaining(steps, from, total)
  {
    if s == |steps| {
      assert steps[..s] == steps;
    } else {
      if s < |steps| - 1 {
        RemainingShrinks(Init(steps), s, from, total);
        assert Init(steps)[..s] == steps[..s];
      } else {
        assert steps[..s] == Init(steps) && steps[s] == Last(steps);
      }
    }
  }

  /** A position filled in step `s` is filled in no other step, and holds for good the best token
      for the sequence the steps before `s` left. */
  lemma {:induction false} FilledOnce(start: seq<Token>, steps: seq<seq<nat>>, from: nat, d: Denoiser, s: nat, p: nat)
    requires from <= |start| && Unmasked(start, steps, from, d) && s < |steps| && p in steps[s]
    ensures from <= p < |start| && After(start, steps, d)[p] == d.best(After(start, steps[..s], d), p)
    ensures forall t :: 0 <= t < |steps| && t != s ==> p !in steps[t]
  {
    var less := Init(steps);
    if s == |steps| - 1 {
      assert steps[..s] == less && steps[s] == Last(steps);
      RemainingShrinks(less, 0, from, |start|);
      assert less[..0] == [] && p in Remaining(less, from, |start|);
      forall t | 0 <= t < s ensures p !in steps[t] { RemainingShrinks(less, t, from, |start|); }
    } else {
      FilledOnce(start, less, from, d, s, p);
      assert less[..s] == steps[..s];
      RemainingShrinks(less, s, from, |start|);
      assert p !in Last(steps);
    }
  }

  /** Steps never touch the prompt. */
  lemma {:induction false} PromptStays(start: seq<Token>, steps: seq<seq<nat>>, from: nat, d: Denoiser)
    requires from <= |start| && Unmasked(start, steps, from, d)
    ensures After(start, steps, d)[..from] == start[..from]
  {
    if steps != [] {
      PromptStays(start, Init(steps), from, d);
      RemainingShrinks(Init(steps), 0, from, |start|);
      assert Init(steps)[..0] == [];
      assert forall p :: 0 <= p < from ==> p !in Last(steps);
    }
  }

  /** Until its step a position holds the mask, so that is what every forward pass sees there. */
  lemma {:induction false} MaskStays(start: seq<Token>, steps: seq<seq<nat>>, from: nat, d: Denoiser, maskId: Token, p: nat)
    requires from <= |start| && Unmasked(start, steps, from, d)
    requires forall q :: from <= q < |start| ==> start[q] == maskId
    requires p in Remaining(steps, from, |start|)
    ensures from <= p < |start| && After(start, steps, d)[p] == maskId
  {
    if steps != [] {
      MaskStays(start, Init(steps), from, d, maskId, p);
      assert p !in Last(steps);
    }
  }

  /** What the forward pass behind `steps` sees: masks at exactly the positions not yet filled. */
  ghost predicate SeesMasks(start: seq<Token>, steps: seq<seq<nat>>, from: nat, d: Denoiser, maskId: Token)
    requires from <= |start|
  {
    forall p :: p in Remaining(steps, from, |start|) ==> p < |start| && After(start, steps, d)[p] == maskId
  }

  lemma MasksSeen(start: seq<Token>, steps: seq<seq<nat>>, from: nat, d: Denoiser, maskId: Token)
    requires from <= |start| && Unmasked(start, steps, from, d)
    requires forall q :: from <= q < |start| ==> start[q] == maskId
    ensures SeesMasks(start, steps, from, d, maskId)
  {
    hide Unmasked, Remaining, After;
    forall p | p in Remaining(steps, from, |start|) ensures p < |start| && After(start, steps, d)[p] == maskId {
      MaskStays(start, steps, from, d, maskId, p);
    }
  }

  /** Every position is filled or still masked, never both. */
  lemma {:induction false} NoneLost(start: seq<Token>, steps: seq<seq<nat>>, from: nat, d: Denoiser)
    requires from <= |start| && Unmasked(start, steps, from, d)
    ensures Total(steps) + |Remaining(steps, from, |start|)| == |start| - from
  {
    if steps != [] {
      NoneLost(start, Init(steps), from, d);
      NoDupCard(Last(steps));
      assert Elements(Last(steps)) <= Remaining(Init(steps), from, |start|);
    }
  }

  // ---- the loop ------------------------------------------------------------------

  lemma {:induction false} BestExists(masked: set<nat>, ids: seq<Token>, d: Denoiser) returns (p: nat)
    requires masked != {}
    ensures p in masked && forall q :: q in masked ==> d.confidence(ids, q) <= d.confidence(ids, p)
    decreases |masked|
  {
    var first :| first in masked;
    p := first;
    var rest := masked - {first};
    if rest != {} {
      var r := BestExists(rest, ids, d);
      if d.confidence(ids, r) > d.confidence(ids, first) { p := r; }
      forall q | q in masked ensures d.confidence(ids, q) <= d.confidence(ids, p) {
        if q != first { assert q in rest; }
      }
    } else {
      assert forall q :: q in masked ==> q == first || q in rest;
    }
  }

  /** The `n` most confident masked positions. */
  method TopK(masked: set<nat>, n: nat, ids: seq<Token>, d: Denoiser) returns (top: seq<nat>)
    requires n <= |masked|
    ensures |top| == n && MostConfident(top, masked, ids, d)
  {
    top := [];
    var rest := masked;
    while |top| < n
      invariant |top| <= n && |rest| == |masked| - |top|
      invariant forall q :: q in rest <==> q in masked && q !in top
      invariant forall i :: 0 <= i < |top| ==> top[i] in masked
      invariant forall i, j :: 0 <= i < j < |top| ==> top[i] != top[j]
      invariant forall i, q :: 0 <= i < |top| && q in rest ==> d.confidence(ids, q) <= d.confidence(ids, top[i])
      decreases n - |top|
    {
      ghost var best := BestExists(rest, ids, d);
      var p :| p in rest && forall q :: q in rest ==> d.confidence(ids, q) <= d.confidence(ids, p);
      top := top + [p];
      rest := rest - {p};
    }
  }

  /** The positions `from..total`. */
  function Range(from: nat, total: nat): (r: set<nat>)
    requires from <= total
    ensures |r| == total - from && forall p :: p in r <==> from <= p < total
    decreases total - from
  {
    if from == total then {} else {from} + Range(from + 1, total)
  }

  /** A step's count is within the balanced schedule's bounds. */
  predicate Balanced(n: nat, m: nat, t: nat) {
    t >= 1 && (if Floor(m, t) > 1 then Floor(m, t) else 1) <= n <= Ceil(m, t)
  }

  /** Step `s` fills an equal share of what the steps before it left, rounded down, and at least one. */
  predicate OnQuota(steps: seq<seq<nat>>, s: nat, m: nat, t: nat) {
    s < |steps| && s < t && Total(steps[..s]) < m && EqualShare(|steps[s]|, m - Total(steps[..s]), t - s)
  }

  predicate EqualShare(n: nat, remaining: nat, left: nat)
    requires left >= 1
  {
    n == if remaining / left == 0 then 1 else remaining / left
  }

  lemma QuotaIsShare(remaining: nat, left: nat)
    requires remaining >= 1 && left >= 1
    ensures EqualShare(Quota(remaining, left), remaining, left)
  {
    hide Quota;
    QuotaShare(remaining, left, remaining / left);
  }

  lemma QuotaMet(steps: seq<seq<nat>>, top: seq<nat>, m: nat, t: nat, left: nat)
    requires |steps| < t && left >= 1 && left == m - Total(steps) && |top| == Quota(left, t - |steps|)
    ensures OnQuota(steps + [top], |steps|, m, t)
  {
    hide Total, Quota, EqualShare;
    assert (steps + [top])[..|steps|] == steps;
    QuotaIsShare(left, t - |steps|);
  }

  lemma QuotaStays(steps: seq<seq<nat>>, top: seq<nat>, s: nat, m: nat, t: nat)
    requires OnQuota(steps, s, m, t)
    ensures OnQuota(steps + [top], s, m, t)
  {
    hide Total, EqualShare;
    assert (steps + [top])[..s] == steps[..s];
  }

  /** `left` of `m` masks are on schedule with `steps` of `t` steps left. */
  predicate Planned(left: nat, steps: nat, m: nat, t: nat) {
    t >= 1 && OnSchedule(left, steps, Floor(m, t), Ceil(m, t))
  }

  lemma QuotaPlanned(left: nat, steps: nat, m: nat, t: nat)
    requires Planned(left, steps, m, t) && left >= 1 && steps >= 1 && m >= 1
    ensures Balanced(Quota(left, steps), m, t) && Planned(left - Quota(left, steps), steps - 1, m, t)
  {
    StartsOnSchedule(m, t);
    QuotaKeepsSchedule(left, steps, Floor(m, t), Ceil(m, t));
  }

  lemma PlannedOut(left: nat, m: nat, t: nat)
    requires Planned(left, 0, m, t)
    ensures left == 0
  {
  }

  /** The prompt followed by masks. */
  function Start(prompt: seq<Token>, maxTokens: nat, maskId: Token): (r: seq<Token>)
    ensures |r| == |prompt| + maxTokens && r[..|prompt|] == prompt
    ensures forall p :: |prompt| <= p < |r| ==> r[p] == maskId
  {
    prompt + seq(maxTokens, _ => maskId)
  }

  /** Fill the masks of one generation. `steps` is what each forward pass unmasked: a balanced
      number of positions, the most confident ones, until every position has its token. Only
      without any step are the tokens sampled. */
  method Generate(prompt: seq<Token>, maxTokens: nat, numSteps: nat, maskId: Token, d: Denoiser)
    returns (out: seq<Token>, sampled: bool, ghost steps: seq<seq<nat>>)
    ensures |out| == maxTokens && (sampled <==> numSteps == 0 && maxTokens > 0)
    ensures |steps| <= numSteps && Ran(Start(prompt, maxTokens, maskId), steps, |prompt|, maxTokens, numSteps, maskId, d)
    ensures !sampled ==>
      Total(steps) == maxTokens && prompt + out == After(Start(prompt, maxTokens, maskId), steps, d)
    ensures sampled ==> prompt + out == Drawn(Start(prompt, maxTokens, maskId), Range(|prompt|, |prompt| + maxTokens), d)
  {
    hide Quota, OnSchedule, Floor, Ceil, Planned, Ran, After, Remaining, Filled, Total, Drawn, MostConfident, Range, Start,
         Elements, Balanced;
    var from, total := |prompt|, |prompt| + maxTokens;
    ghost var start := Start(prompt, maxTokens, maskId);
    var ids := new Token[total](i => if 0 <= i < |prompt| then prompt[i] else maskId);
    assert ids[..] == start;
    var masked := Range(from, total);
    steps := [];
    RanNone(start, from, maxTokens, numSteps, maskId, d);
    var step := 0;
    if numSteps >= 1 { StartsPlanned(maxTokens, numSteps); }
    while step < numSteps && masked != {}
      invariant step <= numSteps && |steps| == step && masked == Remaining(steps, from, total)
      invariant ids[..] == After(start, steps, d) && Ran(start, steps, from, maxTokens, numSteps, maskId, d)
      invariant |masked| <= maxTokens
      invariant numSteps >= 1 ==> Planned(|masked|, numSteps - step, maxTokens, numSteps) || masked == {}
    {
      var n := Quota(|masked|, numSteps - step);
      QuotaPlanned(|masked|, numSteps - step, maxTokens, numSteps);
      assert forall p :: p in masked ==> p < ids.Length by { RemainingShrinks(steps, 0, from, total); }
      ghost var top, was := [], masked;
      masked, top := UnmaskStep(ids, masked, n, d);
      assert |masked| == |was| - n && Planned(|masked|, numSteps - step - 1, maxTokens, numSteps);
      RanMore(start, steps, from, maxTokens, numSteps, maskId, d, top);
      steps := steps + [top];
      step := step + 1;
    }
    if numSteps >= 1 && masked != {} { PlannedOut(|masked|, maxTokens, numSteps); }
    RanAll(start, steps, from, maxTokens, numSteps, maskId, d);
    assert ids[..from] == ids[..][..from];
    sampled := masked != {};
    if sampled {
      assert steps == [] && masked == Range(from, total);
      DrawnPrompt(start, from, d);
      SampleRest(ids, masked, d);
      assert ids[..] == Drawn(start, Range(from, total), d);
    }
    ghost var all := ids[..];
    Rejoined(all, from);
    out := ids[from..];
    assert all[..from] == prompt && all[from..] == out;
  }

  /** A run of at most `t` steps: each forward pass sees the mask at exactly the positions not yet
      filled, and each step fills the most confident of them, as many as is its share. */
  ghost predicate Ran(start: seq<Token>, steps: seq<seq<nat>>, from: nat, m: nat, t: nat, maskId: Token, d: Denoiser)
    requires from <= |start|
  {
    && m == |start| - from && Unmasked(start, steps, from, d)
    && (forall s :: 0 <= s < |steps| ==> Balanced(|steps[s]|, m, t) && OnQuota(steps, s, m, t))
    && (forall s :: 0 <= s <= |steps| ==> SeesMasks(start, steps[..s], from, d, maskId))
  }

  lemma RanNone(start: seq<Token>, from: nat, m: nat, t: nat, maskId: Token, d: Denoiser)
    requires from + m == |start| && forall q :: from <= q < |start| ==> start[q] == maskId
    ensures Ran(start, [], from, m, t, maskId, d) && After(start, [], d) == start
    ensures Remaining([], from, |start|) == Range(from, |start|)
  {
    hide SeesMasks, Balanced, OnQuota;
    MasksSeen(start, [], from, d, maskId);
    var none: seq<seq<nat>> := [];
    assert none[..0] == none;
  }

  /** One more step keeps that. */
  lemma RanMore(start: seq<Token>, steps: seq<seq<nat>>, from: nat, m: nat, t: nat, maskId: Token, d: Denoiser, top: seq<nat>)
    requires from <= |start| && (forall q :: from <= q < |start| ==> start[q] == maskId)
    requires Ran(start, steps, from, m, t, maskId, d) && |steps| < t
    requires
      var masked := Remaining(steps, from, |start|);
      && masked != {} && |top| == Quota(|masked|, t - |steps|) && Balanced(|top|, m, t)
      && MostConfident(top, masked, After(start, steps, d), d)
    ensures Ran(start, steps + [top], from, m, t, maskId, d)
    ensures After(start, steps + [top], d) == Filled(After(start, steps, d), top, d)
    ensures Remaining(steps + [top], from, |start|) == Remaining(steps, from, |start|) - Elements(top)
  {
    hide Quota, Balanced, Unmasked, After, Remaining, MostConfident, Filled, Total, SeesMasks, OnQuota, Elements;
    MoreSteps(start, steps, from, d, top);
    MasksSeen(start, steps + [top], from, d, maskId);
    EarlierSteps(steps, top);
    NoneLost(start, steps, from, d);
    QuotaMet(steps, top, m, t, |Remaining(steps, from, |start|)|);
    forall s | 0 <= s < |steps| ensures OnQuota(steps + [top], s, m, t) {
      QuotaStays(steps, top, s, m, t);
    }
  }

  lemma RanAll(start: seq<Token>, steps: seq<seq<nat>>, from: nat, m: nat, t: nat, maskId: Token, d: Denoiser)
    requires from <= |start| && Ran(start, steps, from, m, t, maskId, d)
    ensures Unmasked(start, steps, from, d)
    ensures Total(steps) + |Remaining(steps, from, |start|)| == |start| - from
    ensures After(start, steps, d)[..from] == start[..from]
    ensures forall p :: p in Remaining(steps, from, |start|) ==> p < |start|
    ensures steps == [] ==> After(start, steps, d) == start && Remaining(steps, from, |start|) == Range(from, |start|)
  {
    hide Balanced, OnQuota, SeesMasks;
    NoneLost(start, steps, from, d);
    PromptStays(start, steps, from, d);
    RemainingShrinks(steps, 0, from, |start|);
    assert steps[..0] == [];
  }

  lemma Rejoined(all: seq<Token>, n: nat)
    requires n <= |all|
    ensures all[..n] + all[n..] == all
  {
  }

  lemma StartsPlanned(m: nat, t: nat)
    requires t >= 1
    ensures Planned(m, t, m, t)
  {
    StartsOnSchedule(m, t);
  }

  lemma DrawnPrompt(start: seq<Token>, from: nat, d: Denoiser)
    requires from <= |start|
    ensures Drawn(start, Range(from, |start|), d)[..from] == start[..from]
  {
  }

  lemma EarlierSteps(steps: seq<seq<nat>>, top: seq<nat>)
    ensures forall s :: 0 <= s <= |steps| ==> (steps + [top])[..s] == steps[..s]
    ensures (steps + [top])[..|steps| + 1] == steps + [top]
  {
  }

  lemma MoreSteps(start: seq<Token>, steps: seq<seq<nat>>, from: nat, d: Denoiser, top: seq<nat>)
    requires from <= |start| && Unmasked(start, steps, from, d)
    requires MostConfident(top, Remaining(steps, from, |start|), After(start, steps, d), d)
    ensures Unmasked(start, steps + [top], from, d)
    ensures After(start, steps + [top], d) == Filled(After(start, steps, d), top, d)
    ensures Remaining(steps + [top], from, |start|) == Remaining(steps, from, |start|) - Elements(top)
  {
    assert Init(steps + [top]) == steps && Last(steps + [top]) == top;
  }

  /** The fallback: positions still masked get sampled tokens. */
  method SampleRest(ids: array<Token>, masked: set<nat>, d: Denoiser)
    requires forall p :: p in masked ==> p < ids.Length
    modifies ids
    ensures ids[..] == Drawn(old(ids[..]), masked, d)
  {
    ghost var seen := ids[..];
    var drawn := map p | p in masked :: d.sample(ids[..], p);
    var rest := masked;
    while rest != {}
      invariant rest <= masked
      invariant forall p :: 0 <= p < ids.Length ==> ids[p] == if p in masked && p !in rest then d.sample(seen, p) else seen[p]
      decreases |rest|
    {
      var p :| p in rest;
      ids[p] := drawn[p];
      rest := rest - {p};
    }
  }

  /** One step: the most confident positions get their best tokens; nothing else is written. */
  method UnmaskStep(ids: array<Token>, masked: set<nat>, n: nat, d: Denoiser) returns (left: set<nat>, top: seq<nat>)
    requires n <= |masked| && forall p :: p in masked ==> p < ids.Length
    modifies ids
    ensures |top| == n && MostConfident(top, masked, old(ids[..]), d)
    ensures left == masked - Elements(top) && |left| == |masked| - n
    ensures ids[..] == Filled(old(ids[..]), top, d)
  {
    ghost var snapshot := ids[..];
    top := TopK(masked, n, ids[..], d);
    var tokens := seq(n, i requires 0 <= i < |top| reads ids => d.best(ids[..], top[i]));
    left := masked;
    for i := 0 to n
      invariant forall p :: p in left <==> p in masked && p !in top[..i]
      invariant |left| == |masked| - i
      invariant forall p :: 0 <= p < ids.Length ==> ids[p] == if p in top[..i] then d.best(snapshot, p) else snapshot[p]
    {
      assert top[i] in left;
      ids[top[i]] := tokens[i];
      left := left - {top[i]};
      assert top[..i + 1] == top[..i] + [top[i]];
    }
    assert top[..n] == top;
  }
}
