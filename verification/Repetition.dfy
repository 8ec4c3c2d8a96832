/** The incrementally maintained set of a sequence's tokens, for the repetition penalty. */
module Repetition {
  import opened Lists
  import opened Network

  /** What follows position `start` is made of the prompt's rest and the outputs' rest. */
  lemma TailElements(prompt: seq<Token>, outputs: seq<Token>, start: nat)
    requires start <= |prompt + outputs|
    ensures start <= |prompt| ==> Elements(prompt[start..]) + Elements(outputs) == Elements((prompt + outputs)[start..])
    ensures start >= |prompt| ==> outputs[start - |prompt|..] == (prompt + outputs)[start..]
  {
    if start <= |prompt| {
      ElementsConcat(prompt[start..], outputs);
      assert prompt[start..] + outputs == (prompt + outputs)[start..];
    }
  }

  lemma PrefixElements(was: seq<Token>, all: seq<Token>)
    requires was <= all
    ensures Elements(was) + Elements(all[|was|..]) == Elements(all)
  {
    ElementsConcat(was, all[|was|..]);
    assert was + all[|was|..] == all;
  }

  lemma NothingLeft(all: seq<Token>)
    ensures Elements(all[|all|..]) == {} && all[0..] == all
  {
  }

  class RepetitionCache {
    var seen: set<Token>
    var count: nat
    /** The history as it was at the last call. */
    ghost var history: seq<Token>

    ghost predicate Valid()
      reads this
    {
      count == |history| && seen == Elements(history)
    }

    constructor ()
      ensures Valid() && history == []
    {
      seen, count, history := {}, 0, [];
    }

    /** The distinct tokens of the whole history. Only tokens past the counter are scanned: the
        history may have grown since the last call, or it is shorter and is scanned anew. */
    method RepetitionTokenIds(prompt: seq<Token>, outputs: seq<Token>) returns (ids: set<Token>)
      requires Valid()
      modifies this
      ensures count == |prompt + outputs| && ids == seen
      ensures old(history) <= prompt + outputs || |old(history)| > |prompt + outputs| ==>
        Valid() && history == prompt + outputs && ids == Elements(prompt + outputs)
    {
      hide Elements;
      var all := prompt + outputs;
      ghost var was := history;
      NothingLeft(all);
      if count > |all| {
        seen, count := {}, 0;
      }
      ghost var start, base := count, seen;
      TailElements(prompt, outputs, start);
      if count < |prompt| {
        seen := seen + Elements(prompt[count..]);
        count := |prompt|;
      }
      NothingLeft(outputs);
      if count < |all| {
        seen := seen + Elements(outputs[count - |prompt|..]);
        count := |all|;
      }
      assert outputs[0..] == outputs;
      assert seen == base + Elements(all[start..]);
      if was <= all { PrefixElements(was, all); }
      history := all;
      ids := seen;
    }
  }
}
