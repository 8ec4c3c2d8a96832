/** Plain greedy decoding of one request on its own: the reference every engine run is
    compared with. */
module Greedy {
  import opened Options
  import opened Network

  /** What a client asked for. */
  datatype Request = Request(prompt: seq<Token>, maxTokens: nat, ignoreEos: bool, maxLen: Option<nat>)

  datatype Reason = Length | Stop

  /** Why generation is over once `outs` has been generated after a prompt of `n` tokens. */
  function FinishReason(n: nat, maxTokens: nat, ignoreEos: bool, maxLen: Option<nat>, eos: Option<Token>,
                        outs: seq<Token>): Option<Reason> {
    if |outs| >= maxTokens then Some(Length)
    else if maxLen.Some? && n + |outs| >= maxLen.value then Some(Length)
    else if !ignoreEos && eos.Some? && outs != [] && Last(outs) == eos.value then Some(Stop)
    else None
  }

  predicate Done(req: Request, eos: Option<Token>, outs: seq<Token>) {
    FinishReason(|req.prompt|, req.maxTokens, req.ignoreEos, req.maxLen, eos, outs).Some?
  }

  /** Greedy decoding continued from `outs` until the request is done. */
  function GreedyFrom(net: Net, eos: Option<Token>, req: Request, outs: seq<Token>): seq<Token>
    requires req.prompt != []
    decreases if |outs| < req.maxTokens then req.maxTokens - |outs| else 0
  {
    if Done(req, eos, outs) then outs
    else GreedyFrom(net, eos, req, outs + [Next(net, req.prompt + outs)])
  }

  /** The output of the request when it is served alone: prefill yields one token, then
      decode steps follow until it is done. */
  function Alone(net: Net, eos: Option<Token>, req: Request): seq<Token>
    requires req.prompt != []
  {
    GreedyFrom(net, eos, req, [Next(net, req.prompt)])
  }

  /** From position `n` on, every token of `all` is the greedy successor of what precedes it. */
  ghost predicate GreedyTail(net: Net, all: seq<Token>, n: nat) {
    n > 0 && forall k :: n <= k < |all| ==> all[k] == Next(net, all[..k])
  }

  /** Greedy tokens that pass no stopping point on the way stay on the request's own run. */
  lemma {:induction false} StaysOnTrack(net: Net, eos: Option<Token>, req: Request, outs: seq<Token>, k: nat)
    requires req.prompt != [] && k <= |outs|
    requires GreedyTail(net, req.prompt + outs, |req.prompt| + k)
    requires forall j :: k <= j < |outs| ==> !Done(req, eos, outs[..j])
    ensures GreedyFrom(net, eos, req, outs) == GreedyFrom(net, eos, req, outs[..k])
    decreases |outs| - k
  {
    if k == |outs| {
      assert outs[..k] == outs;
    } else {
      hide Done, Next, GreedyFrom, GreedyTail;
      StaysOne(net, eos, req, outs, k);
      StaysOnTrack(net, eos, req, outs, k + 1);
    }
  }

  lemma StaysOne(net: Net, eos: Option<Token>, req: Request, outs: seq<Token>, k: nat)
    requires req.prompt != [] && k < |outs| && !Done(req, eos, outs[..k])
    requires GreedyTail(net, req.prompt + outs, |req.prompt| + k)
    ensures GreedyTail(net, req.prompt + outs, |req.prompt| + k + 1)
    ensures GreedyFrom(net, eos, req, outs[..k]) == GreedyFrom(net, eos, req, outs[..k + 1])
  {
    hide Done, Next, GreedyFrom, GreedyTail;
    TailAt(net, req.prompt, outs, k);
    OneGreedy(net, eos, req, outs[..k]);
    assert outs[..k + 1] == outs[..k] + [outs[k]];
  }

  lemma OneGreedy(net: Net, eos: Option<Token>, req: Request, outs: seq<Token>)
    requires req.prompt != [] && !Done(req, eos, outs)
    ensures GreedyFrom(net, eos, req, outs) == GreedyFrom(net, eos, req, outs + [Next(net, req.prompt + outs)])
  {
    hide Done, Next;
  }

  lemma TailAt(net: Net, prompt: seq<Token>, outs: seq<Token>, k: nat)
    requires prompt != [] && k < |outs| && GreedyTail(net, prompt + outs, |prompt| + k)
    ensures outs[k] == Next(net, prompt + outs[..k]) && GreedyTail(net, prompt + outs, |prompt| + k + 1)
  {
    hide Next;
    assert (prompt + outs)[..|prompt| + k] == prompt + outs[..k];
    assert (prompt + outs)[|prompt| + k] == outs[k];
  }

  /** The run of a request ends: it is done, it stopped at the first chance, and every token
      of it is greedy. */
  lemma {:induction false} GreedyFromEnds(net: Net, eos: Option<Token>, req: Request, outs: seq<Token>)
    requires req.prompt != []
    ensures
      var r := GreedyFrom(net, eos, req, outs);
      && outs <= r && Done(req, eos, r)
      && GreedyTail(net, req.prompt + r, |req.prompt| + |outs|)
      && (forall k :: |outs| <= k < |r| ==> !Done(req, eos, r[..k]))
    decreases if |outs| < req.maxTokens then req.maxTokens - |outs| else 0
  {
    if !Done(req, eos, outs) {
      var outs' := outs + [Next(net, req.prompt + outs)];
      GreedyFromEnds(net, eos, req, outs');
      var r := GreedyFrom(net, eos, req, outs);
      assert r[..|outs|] == outs;
      assert (req.prompt + r)[..|req.prompt| + |outs|] == req.prompt + outs;
    }
  }
}
