/** The worker thread that owns the engine. Clients only append to its inbox; the worker takes
    items in order, steps the engine and delivers tokens. Every method of `EngineWorker` is
    one atomic action, so any sequence of calls is an interleaving of clients and worker. */
module Worker {
  import opened Options
  import opened Lists
  import opened Network
  import opened Greedy
  import opened Sequences
  import opened EngineLists
  import opened Pool
  import opened Capacity
  import opened Engine
  import opened EngineRows

  datatype Why = Ended(reason: Reason) | Cancelled
  datatype Event = Tok(token: Token) | Done(why: Why)

  /** The telemetry record of a request's end. */
  datatype Finish = Finish(tokens: nat, why: Why)

  datatype Item = Submit(h: nat) | Cancel(h: nat) | Stop

  /** A client's handle: its request, its place in the engine, and everything ever put on its
      queue. Then history: the telemetry records made for it, its sequence as it was when the
      request ended, and whether its consumer went away before that. */
  datatype Handle = Handle(
    prompt: seq<Token>, maxTokens: nat, ignoreEos: bool,
    seqId: Option<nat>, sent: nat, terminal: bool, queue: seq<Event>,
    starts: nat, firsts: nat, finishes: seq<Finish>, last: Option<Sequence>, abandoned: bool)

  /** Where the worker's loop stands. */
  datatype Point = Top | Drain(wasIdle: bool) | Coalesce | Ready | Dispatching

  function NewHandle(prompt: seq<Token>, maxTokens: nat, ignoreEos: bool): (hd: Handle)
    ensures !hd.abandoned && !hd.terminal && hd.seqId.None? && hd.queue == [] && hd.finishes == []
  {
    Handle(prompt, maxTokens, ignoreEos, None, 0, false, [], 0, 0, [], None, false)
  }

  function Toks(ts: seq<Token>): (r: seq<Event>)
    ensures |r| == |ts|
  {
    seq(|ts|, i requires 0 <= i < |ts| => Tok(ts[i]))
  }

  lemma ToksNext(ts: seq<Token>, n: nat)
    requires n < |ts|
    ensures Toks(ts[..n + 1]) == Toks(ts[..n]) + [Tok(ts[n])]
  {
    assert ts[..n + 1] == ts[..n] + [ts[n]];
  }

  /** Not registered yet. */
  predicate Queued(hd: Handle) {
    hd.prompt != [] && hd == NewHandle(hd.prompt, hd.maxTokens, hd.ignoreEos).(abandoned := hd.abandoned)
  }

  function RequestOf(hd: Handle, maxLen: Option<nat>): Request {
    Request(hd.prompt, hd.maxTokens, hd.ignoreEos, maxLen)
  }

  /** Registered: its queue holds exactly the tokens sent, in order. */
  ghost predicate Streaming(hd: Handle, q: Sequence, maxLen: Option<nat>) {
    && hd.prompt != [] && hd.seqId.Some? && !hd.terminal && hd.last.None?
    && q.Req() == RequestOf(hd, maxLen)
    && hd.sent <= |q.outputs| && hd.queue == Toks(q.outputs[..hd.sent])
    && hd.starts == 1 && hd.finishes == [] && hd.firsts == if hd.sent > 0 then 1 else 0
  }

  /** The reason given for the end of a finished sequence: its length if its budget or its window is
      full, and otherwise the EOS it ends with. */
  ghost predicate EndedFor(eos: Option<Token>, q: Sequence, why: Why) {
    var full := |q.outputs| >= q.maxTokens || (q.maxLen.Some? && |q.prompt| + |q.outputs| >= q.maxLen.value);
    var stopped := !q.ignoreEos && q.outputs != [] && eos == Some(Last(q.outputs));
    why.Ended? && (why.reason == Length <==> full) && (why.reason == Reason.Stop <==> !full && stopped)
  }

  /** How a stream ends: all the tokens, then one `Done`, and one record that says the same. */
  ghost predicate ClosedWith(hd: Handle, q: Sequence, why: Why) {
    hd.queue == Toks(q.outputs) + [Done(why)] && hd.finishes == [Finish(|q.outputs|, why)]
  }

  ghost predicate ClosedFor(net: Net, eos: Option<Token>, maxLen: Option<nat>, hd: Handle, q: Sequence, why: Why) {
    && ClosedWith(hd, q, why) && (why == Cancelled ==> hd.abandoned)
    && (why.Ended? ==> EndedFor(eos, q, why) && Served(net, eos, RequestOf(hd, maxLen), q.outputs, q))
  }

  /** Ended: all the tokens of its sequence, then one `Done`, and every record once. Only an
      abandoned stream is cancelled; any other ends with what its sequence ended with. If nothing
      unbound the sequence, a finished request got its whole greedy output and a cancelled one
      a prefix of it. */
  ghost predicate Over(net: Net, eos: Option<Token>, maxLen: Option<nat>, hd: Handle) {
    && hd.prompt != [] && hd.terminal && hd.last.Some? && hd.last.value.Req() == RequestOf(hd, maxLen)
    && hd.starts == 1 && hd.firsts == (if hd.last.value.outputs != [] then 1 else 0)
    && hd.sent == |hd.last.value.outputs|
    && (exists why :: ClosedFor(net, eos, maxLen, hd, hd.last.value, why))
    && Kept(net, eos, hd.last.value)
  }

  /** Push the tokens not sent yet, one by one. */
  method SendAll(hd: Handle, q: Sequence, maxLen: Option<nat>) returns (r: Handle)
    requires Streaming(hd, q, maxLen)
    ensures r == hd.(firsts := if q.outputs != [] then 1 else 0, sent := |q.outputs|, queue := Toks(q.outputs))
    ensures hd.queue <= r.queue
  {
    hide Toks;
    r := hd;
    if r.sent == 0 && q.outputs != [] { r := r.(firsts := r.firsts + 1); }
    while r.sent < |q.outputs|
      invariant r == hd.(firsts := if q.outputs != [] then 1 else 0, sent := r.sent, queue := r.queue)
      invariant hd.sent <= r.sent <= |q.outputs| && r.queue == Toks(q.outputs[..r.sent]) && hd.queue <= r.queue
    {
      ToksNext(q.outputs, r.sent);
      r := r.(queue := r.queue + [Tok(q.outputs[r.sent])], sent := r.sent + 1);
    }
    assert q.outputs[..r.sent] == q.outputs;
  }

  /** Push the tokens not sent yet, and end the stream of a finished sequence. */
  method Deliver(hd: Handle, q: Sequence, net: Net, eos: Option<Token>, maxLen: Option<nat>) returns (r: Handle)
    requires Streaming(hd, q, maxLen) && Kept(net, eos, q)
    requires q.status == Finished ==> FinOk(net, eos, q)
    ensures r.seqId == hd.seqId && r.abandoned == hd.abandoned && r.terminal == (q.status == Finished) && Followed(hd, r)
    ensures q.status != Finished ==> Streaming(r, q, maxLen) && r.sent == |q.outputs|
    ensures q.status == Finished ==> Over(net, eos, maxLen, r) && r.last == Some(q)
    ensures q.status == Finished ==> exists why :: EndedFor(eos, q, why) && ClosedWith(r, q, why)
  {
    hide FinishReason, FinOk, Kept, EndedFor, Over, Served, Toks;
    r := SendAll(hd, q, maxLen);
    assert q.outputs[..|q.outputs|] == q.outputs;
    if q.status == Finished {
      var reason := FinishReason(|q.prompt|, q.maxTokens, q.ignoreEos, q.maxLen, eos, q.outputs);
      FinishedServes(net, eos, q);
      var why := Ended(if reason.Some? then reason.value else Reason.Stop);
      GivenReason(net, eos, q, why);
      r := r.(finishes := r.finishes + [Finish(|q.outputs|, why)], terminal := true, queue := r.queue + [Done(why)],
              last := Some(q));
      assert ClosedWith(r, q, why);
      OverNow(net, eos, maxLen, hd, q, r, why);
    }
  }

  lemma OverNow(net: Net, eos: Option<Token>, maxLen: Option<nat>, hd: Handle, q: Sequence, r: Handle, why: Why)
    requires Streaming(hd, q, maxLen) && Kept(net, eos, q) && ClosedWith(r, q, why)
    requires r == hd.(sent := |q.outputs|, firsts := if q.outputs != [] then 1 else 0, finishes := r.finishes,
                      terminal := true, queue := r.queue, last := Some(q))
    requires EndedFor(eos, q, why) && Served(net, eos, q.Req(), q.outputs, q)
    ensures Over(net, eos, maxLen, r)
  {
    hide Served, Kept, ClosedWith;
    assert RequestOf(r, maxLen) == q.Req() && why.Ended?;
    assert ClosedFor(net, eos, maxLen, r, q, why);
  }

  lemma GivenReason(net: Net, eos: Option<Token>, q: Sequence, why: Why)
    requires FinOk(net, eos, q)
    requires
      var reason := FinishReason(|q.prompt|, q.maxTokens, q.ignoreEos, q.maxLen, eos, q.outputs);
      why == Ended(if reason.Some? then reason.value else Reason.Stop)
    ensures EndedFor(eos, q, why)
  {
  }

  /** A delivered stream of events: some tokens, then at most one `Done`, then nothing. */
  predicate OnceDone(events: seq<Event>) {
    forall i :: 0 <= i < |events| - 1 ==> events[i].Tok?
  }

  lemma StreamingOnce(hd: Handle, q: Sequence, maxLen: Option<nat>)
    requires Streaming(hd, q, maxLen)
    ensures OnceDone(hd.queue) && forall e :: e in hd.queue ==> e.Tok?
  {
  }

  lemma OverOnce(net: Net, eos: Option<Token>, maxLen: Option<nat>, hd: Handle)
    requires Over(net, eos, maxLen, hd)
    ensures OnceDone(hd.queue) && hd.queue != [] && Last(hd.queue).Done?
  {
    hide FinishReason, Served, Kept;
  }

  // ---- the inbox -----------------------------------------------------------------

  /** Every unregistered handle has exactly one submission waiting, no cancellation overtakes the
      submission it is for, and none is there for a stream whose consumer stayed. */
  ghost predicate InboxOk(inbox: seq<Item>, handles: seq<Handle>) {
    && (forall i :: 0 <= i < |inbox| && !inbox[i].Stop? ==> inbox[i].h < |handles|)
    && (forall i :: 0 <= i < |inbox| && inbox[i].Submit? ==> Queued(handles[inbox[i].h]))
    && (forall i :: 0 <= i < |inbox| && inbox[i].Cancel? ==> handles[inbox[i].h].abandoned)
    && (forall h :: 0 <= h < |handles| && handles[h].seqId.None? ==> Submit(h) in inbox)
    && (forall i, j :: 0 <= i < j < |inbox| && inbox[j].Submit? ==>
          inbox[i] != inbox[j] && inbox[i] != Cancel(inbox[j].h))
  }

  // ---- the pending table ---------------------------------------------------------

  ghost predicate Owned(pending: seq<nat>, handles: seq<Handle>, id: nat) {
    exists h :: h in pending && h < |handles| && handles[h].seqId == Some(id)
  }

  /** The pending handles are distinct, sit on distinct sequences, and the engine knows no
      sequence but theirs. */
  ghost predicate BooksOk(pending: seq<nat>, handles: seq<Handle>, seqs: Table) {
    && NoDup(pending) && (forall h :: h in pending ==> h < |handles| && handles[h].seqId.Some?)
    && (forall a, b :: a in pending && b in pending && a != b ==> handles[a].seqId != handles[b].seqId)
    && (forall id :: id in seqs ==> Owned(pending, handles, id))
  }

  ghost predicate InEngine(hd: Handle, seqs: Table, maxLen: Option<nat>) {
    hd.seqId.Some? && hd.seqId.value in seqs && Streaming(hd, seqs[hd.seqId.value], maxLen)
  }

  /** Between a dispatch and the next step: everything generated was sent, nothing is over. */
  ghost predicate CaughtUp(hd: Handle, seqs: Table) {
    && hd.seqId.Some? && hd.seqId.value in seqs
    && hd.sent == |seqs[hd.seqId.value].outputs| && seqs[hd.seqId.value].status != Finished
  }

  ghost predicate StreamsOk(pending: seq<nat>, handles: seq<Handle>, seqs: Table, maxLen: Option<nat>, sent: bool) {
    forall h :: h in pending ==>
      h < |handles| && InEngine(handles[h], seqs, maxLen) && (sent ==> CaughtUp(handles[h], seqs))
  }

  ghost predicate RestOk(net: Net, eos: Option<Token>, maxLen: Option<nat>, pending: seq<nat>, handles: seq<Handle>) {
    forall h :: 0 <= h < |handles| && h !in pending ==> Queued(handles[h]) || Over(net, eos, maxLen, handles[h])
  }

  function Abandoned(hd: Handle): Handle {
    hd.(abandoned := true)
  }

  lemma AbandonedInbox(inbox: seq<Item>, handles: seq<Handle>, h: nat)
    requires InboxOk(inbox, handles) && h < |handles|
    ensures InboxOk(inbox + [Cancel(h)], handles[h := Abandoned(handles[h])])
  {
    forall x | 0 <= x < |handles| && handles[x].seqId.None? ensures Submit(x) in inbox + [Cancel(h)] {
      assert Submit(x) in inbox;
    }
  }

  lemma AbandonedBooks(net: Net, eos: Option<Token>, maxLen: Option<nat>, pending: seq<nat>, handles: seq<Handle>,
                       seqs: Table, h: nat, sent: bool)
    requires BooksOk(pending, handles, seqs) && h < |handles|
    requires StreamsOk(pending, handles, seqs, maxLen, sent) && RestOk(net, eos, maxLen, pending, handles)
    ensures
      var now := handles[h := Abandoned(handles[h])];
      BooksOk(pending, now, seqs) && StreamsOk(pending, now, seqs, maxLen, sent) && RestOk(net, eos, maxLen, pending, now)
  {
    hide BooksOk, InEngine, CaughtUp, Queued, Over;
    var now := handles[h := Abandoned(handles[h])];
    RenamedBooks(pending, handles, now, seqs);
    AbandonedHandle(net, eos, maxLen, handles[h], seqs);
    assert RestOk(net, eos, maxLen, pending, now) by {
      forall x | 0 <= x < |now| && x !in pending ensures Queued(now[x]) || Over(net, eos, maxLen, now[x]) {
        assert Queued(handles[x]) || Over(net, eos, maxLen, handles[x]);
      }
    }
  }

  lemma AbandonedHandle(net: Net, eos: Option<Token>, maxLen: Option<nat>, hd: Handle, seqs: Table)
    ensures InEngine(hd, seqs, maxLen) ==> InEngine(Abandoned(hd), seqs, maxLen)
    ensures CaughtUp(hd, seqs) ==> CaughtUp(Abandoned(hd), seqs)
    ensures Queued(hd) ==> Queued(Abandoned(hd))
    ensures Over(net, eos, maxLen, hd) ==> Over(net, eos, maxLen, Abandoned(hd))
  {
    hide Served, Kept, EndedFor;
    if Over(net, eos, maxLen, hd) {
      var why :| ClosedFor(net, eos, maxLen, hd, hd.last.value, why);
      assert ClosedFor(net, eos, maxLen, Abandoned(hd), hd.last.value, why);
    }
  }

  /** A new handle at the end and its submission behind the inbox. */
  lemma InboxMore(inbox: seq<Item>, handles: seq<Handle>, hd: Handle)
    requires InboxOk(inbox, handles) && Queued(hd)
    ensures InboxOk(inbox + [Submit(|handles|)], handles + [hd])
  {
    hide Queued;
    var now := handles + [hd];
    forall h | 0 <= h < |now| && now[h].seqId.None? ensures Submit(h) in inbox + [Submit(|handles|)] {
      if h < |handles| { assert Submit(h) in inbox; }
    }
  }

  lemma BooksMore(pending: seq<nat>, handles: seq<Handle>, seqs: Table, hd: Handle)
    requires BooksOk(pending, handles, seqs)
    ensures BooksOk(pending, handles + [hd], seqs)
  {
    forall id | id in seqs ensures Owned(pending, handles + [hd], id) {
      assert Owned(pending, handles, id);
    }
  }

  lemma StreamsMore(pending: seq<nat>, handles: seq<Handle>, seqs: Table, maxLen: Option<nat>, sent: bool, hd: Handle)
    requires StreamsOk(pending, handles, seqs, maxLen, sent)
    ensures StreamsOk(pending, handles + [hd], seqs, maxLen, sent)
  {
    hide InEngine, CaughtUp;
  }

  lemma RestMore(net: Net, eos: Option<Token>, maxLen: Option<nat>, pending: seq<nat>, handles: seq<Handle>, hd: Handle)
    requires RestOk(net, eos, maxLen, pending, handles) && Queued(hd)
    ensures RestOk(net, eos, maxLen, pending, handles + [hd])
  {
    hide Queued, Over;
  }

  lemma RegisteredBooks(pending: seq<nat>, handles: seq<Handle>, seqs: Table, maxLen: Option<nat>, h: nat, id: nat,
                        now: seq<Handle>, table: Table)
    requires BooksOk(pending, handles, seqs) && StreamsOk(pending, handles, seqs, maxLen, true)
    requires h < |handles| == |now| && Queued(handles[h]) && id !in seqs
    requires now == handles[h := handles[h].(seqId := Some(id), starts := 1)]
    requires table == seqs[id := FreshSequence(handles[h], maxLen)]
    ensures BooksOk(pending + [h], now, table) && StreamsOk(pending + [h], now, table, maxLen, true)
  {
    hide Streaming, Owned;
    assert h !in pending;
    NoDupAppend(pending, h);
    FreshStreams(handles[h], id, maxLen);
    forall i | i in table ensures Owned(pending + [h], now, i) {
      if i == id { OwnedNow(pending + [h], now, i, h); } else { StillOwned(pending, handles, pending + [h], now, i); }
    }
    forall x | x in pending + [h] ensures InEngine(now[x], table, maxLen) && CaughtUp(now[x], table) {
      if x in pending { assert InEngine(handles[x], seqs, maxLen) && CaughtUp(handles[x], seqs) && now[x] == handles[x]; }
    }
  }

  lemma OwnedNow(pending: seq<nat>, handles: seq<Handle>, id: nat, h: nat)
    requires h in pending && h < |handles| && handles[h].seqId == Some(id)
    ensures Owned(pending, handles, id)
  {
  }

  lemma StillOwned(pending: seq<nat>, handles: seq<Handle>, list: seq<nat>, now: seq<Handle>, id: nat)
    requires Owned(pending, handles, id)
    requires forall h :: h in pending && h < |handles| && handles[h].seqId == Some(id) ==>
      h in list && h < |now| && now[h].seqId == Some(id)
    ensures Owned(list, now, id)
  {
  }

  lemma FreshStreams(hd: Handle, id: nat, maxLen: Option<nat>)
    requires Queued(hd)
    ensures Streaming(hd.(seqId := Some(id), starts := 1), FreshSequence(hd, maxLen), maxLen)
  {
  }

  lemma CancelledBooks(pending: seq<nat>, handles: seq<Handle>, seqs: Table, maxLen: Option<nat>, h: nat, now: seq<Handle>,
                       table: Table)
    requires BooksOk(pending, handles, seqs) && StreamsOk(pending, handles, seqs, maxLen, true)
    requires h in pending && h < |handles| == |now| && now == handles[h := now[h]] && handles[h].seqId.Some?
    requires table == seqs - {handles[h].seqId.value}
    ensures BooksOk(Removed(pending, h), now, table) && StreamsOk(Removed(pending, h), now, table, maxLen, true)
  {
    hide Streaming, Owned;
    RemovedNoDup(pending, h);
    var left := Removed(pending, h);
    forall i | i in table ensures Owned(left, now, i) { StillOwned(pending, handles, left, now, i); }
    forall x | x in left ensures InEngine(now[x], table, maxLen) && CaughtUp(now[x], table) {
      assert InEngine(handles[x], seqs, maxLen) && CaughtUp(handles[x], seqs) && now[x] == handles[x];
    }
  }

  /** The engine stepped: what was sent stays a prefix of what is generated. */
  lemma SteppedBooks(pending: seq<nat>, handles: seq<Handle>, was: Table, now: Table, maxLen: Option<nat>)
    requires BooksOk(pending, handles, was) && StreamsOk(pending, handles, was, maxLen, true) && AllEvolve(was, now)
    ensures BooksOk(pending, handles, now) && StreamsOk(pending, handles, now, maxLen, false)
  {
    hide Streaming, Evolves;
    forall x | x in pending ensures InEngine(handles[x], now, maxLen) {
      assert InEngine(handles[x], was, maxLen);
      var id := handles[x].seqId.value;
      StillStreaming(handles[x], was[id], now[id], maxLen);
    }
  }

  class EngineWorker {
    const engine: LLMEngine
    const coalesce: bool
    const target: nat

    var inbox: seq<Item>
    var handles: seq<Handle>
    var pending: seq<nat>
    var closed: bool
    var point: Point

    ghost predicate Valid()
      reads this, engine, engine.cache
    {
      && engine.Inv() && InboxOk(inbox, handles) && BooksOk(pending, handles, engine.seqs)
      && StreamsOk(pending, handles, engine.seqs, engine.maxLen, point != Dispatching)
      && RestOk(engine.net, engine.eos, engine.maxLen, pending, handles)
    }

    /** At every moment of every interleaving: tokens, then at most one `Done`, then nothing; a
        `Done` exactly when the stream is over; each record at most once, and the last one as the
        `Done` says. A stream whose consumer stayed ends for a reason its sequence gives. */
    lemma Delivered(h: nat)
      requires Valid() && h < |handles|
      ensures OnceDone(handles[h].queue)
      ensures handles[h].terminal <==> handles[h].queue != [] && Last(handles[h].queue).Done?
      ensures handles[h].finishes ==
        if handles[h].terminal then [Finish(|handles[h].queue| - 1, Last(handles[h].queue).why)] else []
      ensures handles[h].terminal && !handles[h].abandoned ==>
        handles[h].last.Some? && EndedFor(engine.eos, handles[h].last.value, Last(handles[h].queue).why)
      ensures handles[h].firsts == if handles[h].sent > 0 then 1 else 0
      ensures handles[h].starts <= 1
    {
      hide LLMEngine.Inv, BooksOk, InboxOk, Served, Kept, FinishReason;
      if h in pending {
        StreamingOnce(handles[h], engine.seqs[handles[h].seqId.value], engine.maxLen);
        if handles[h].queue != [] { assert Last(handles[h].queue) in handles[h].queue; }
      } else if !Queued(handles[h]) {
        OverOnce(engine.net, engine.eos, engine.maxLen, handles[h]);
      }
    }

    constructor (engine: LLMEngine, coalesce: bool, target: nat)
      requires engine.Inv() && engine.seqs == map[]
      ensures Valid() && this.engine == engine && handles == [] && inbox == [] && pending == [] && !closed
    {
      this.engine, this.coalesce, this.target := engine, coalesce, target;
      inbox, handles, pending, closed, point := [], [], [], false, Top;
    }

    // ---- clients -------------------------------------------------------------------

    /** Enqueue a request. `sawOpen`: the client read the closed flag before it was set; a
        client that reads it set gets an error. */
    method SubmitRequest(prompt: seq<Token>, maxTokens: nat, ignoreEos: bool, sawOpen: bool) returns (r: Option<nat>)
      requires Valid() && prompt != []
      modifies this`inbox, this`handles
      ensures Valid() && (r.None? <==> closed && !sawOpen)
      ensures r.None? ==> handles == old(handles) && inbox == old(inbox)
      ensures r.Some? ==>
        && r.value == |old(handles)| && handles == old(handles) + [NewHandle(prompt, maxTokens, ignoreEos)]
        && inbox == old(inbox) + [Submit(r.value)]
    {
      hide LLMEngine.Inv, InboxOk, BooksOk, StreamsOk, RestOk;
      if closed && !sawOpen { return None; }
      var h := |handles|;
      InboxMore(inbox, handles, NewHandle(prompt, maxTokens, ignoreEos));
      BooksMore(pending, handles, engine.seqs, NewHandle(prompt, maxTokens, ignoreEos));
      StreamsMore(pending, handles, engine.seqs, engine.maxLen, point != Dispatching, NewHandle(prompt, maxTokens, ignoreEos));
      RestMore(engine.net, engine.eos, engine.maxLen, pending, handles, NewHandle(prompt, maxTokens, ignoreEos));
      handles := handles + [NewHandle(prompt, maxTokens, ignoreEos)];
      inbox := inbox + [Submit(h)];
      r := Some(h);
    }

    /** The consumer goes away: unless the stream is over, a cancellation joins the inbox. */
    method Abandon(h: nat)
      requires Valid() && h < |handles|
      modifies this`inbox, this`handles
      ensures Valid()
      ensures inbox == if old(handles)[h].terminal then old(inbox) else old(inbox) + [Cancel(h)]
      ensures handles == if old(handles)[h].terminal then old(handles) else old(handles)[h := Abandoned(old(handles)[h])]
    {
      hide LLMEngine.Inv, InboxOk, BooksOk, StreamsOk, RestOk;
      if !handles[h].terminal {
        AbandonedInbox(inbox, handles, h);
        AbandonedBooks(engine.net, engine.eos, engine.maxLen, pending, handles, engine.seqs, h, point != Dispatching);
        inbox := inbox + [Cancel(h)];
        handles := handles[h := Abandoned(handles[h])];
      }
    }

    method Close()
      requires Valid()
      modifies this`inbox, this`closed
      ensures Valid() && closed
      ensures inbox == if old(closed) then old(inbox) else old(inbox) + [Item.Stop]
    {
      hide LLMEngine.Inv, Over, Streaming;
      if !closed {
        closed := true;
        inbox := inbox + [Item.Stop];
      }
    }

    // ---- the worker thread ---------------------------------------------------------

    /** Register a submission. False is the over-length error, which ends the thread. */
    method Register(h: nat) returns (ok: bool)
      requires engine.Inv() && h < |handles| && handles[h].prompt != []
      modifies this`handles, this`pending, engine`seqs, engine`waiting, engine`nextId, engine`bounds
      ensures engine.Inv() && (!ok <==> engine.maxLen.Some? && |old(handles[h].prompt)| > engine.maxLen.value)
      ensures !ok ==> handles == old(handles) && pending == old(pending)
      ensures ok ==> engine.bounds == Admissible(old(engine.bounds), RequestOf(old(handles[h]), engine.maxLen))
      ensures ok ==> exists id ::
        && id !in old(engine.seqs) && pending == old(pending) + [h]
        && handles == old(handles)[h := old(handles)[h].(seqId := Some(id), starts := old(handles)[h].starts + 1)]
        && engine.seqs == old(engine.seqs)[id := FreshSequence(old(handles[h]), engine.maxLen)]
    {
      hide LLMEngine.Inv;
      var hd := handles[h];
      var id := engine.AddRequest(hd.prompt, hd.maxTokens, hd.ignoreEos);
      if id.None? { return false; }
      pending := pending + [h];
      handles := handles[h := hd.(seqId := id, starts := hd.starts + 1)];
      ok := true;
    }

    /** Apply a cancellation. One for a stream that is over changes nothing. */
    method CancelHandle(h: nat)
      requires engine.Inv() && h < |handles| && handles[h].abandoned
      requires h in pending ==> InEngine(handles[h], engine.seqs, engine.maxLen) && CaughtUp(handles[h], engine.seqs)
      modifies this`handles, this`pending, engine`waiting, engine`running, engine`seqs, engine.cache
      ensures engine.Inv()
      ensures h !in old(pending) ==> handles == old(handles) && pending == old(pending) && engine.seqs == old(engine.seqs)
      ensures h in old(pending) ==>
        && |handles| == |old(handles)| && Over(engine.net, engine.eos, engine.maxLen, handles[h])
        && handles == old(handles)[h := handles[h]]
        && handles[h].queue == old(handles[h].queue) + [Done(Cancelled)] && Followed(old(handles[h]), handles[h])
        && pending == Removed(old(pending), h) && handles[h].seqId == old(handles[h].seqId)
        && engine.seqs == old(engine.seqs) - {old(handles[h].seqId.value)}
      ensures old(engine.Roomy()) ==> engine.Roomy()
    {
      hide LLMEngine.Inv, Kept, EndedFor, Served;
      var hd := handles[h];
      if hd.terminal || hd.seqId.None? || h !in pending { return; }
      var id := hd.seqId.value;
      var q := engine.seqs[id];
      engine.KeptHere(id);
      var found := engine.Cancel(id);
      pending := Removed(pending, h);
      handles := handles[h := hd.(terminal := true, finishes := hd.finishes + [Finish(|q.outputs|, Cancelled)],
                                  queue := hd.queue + [Done(Cancelled)], last := Some(q))];
      assert q.outputs[..hd.sent] == q.outputs;
      assert ClosedFor(engine.net, engine.eos, engine.maxLen, handles[h], q, Cancelled);
    }

    /** Take the submission at the head of the inbox. */
    method TakeSubmit(h: nat) returns (ok: bool)
      requires Valid() && inbox != [] && inbox[0] == Submit(h) && point != Dispatching
      modifies this`inbox, this`handles, this`pending, engine`seqs, engine`waiting, engine`nextId, engine`bounds
      ensures !ok ==> handles == old(handles)
      ensures !ok <==> TooLong(Submit(h), old(handles), engine.maxLen)
      ensures ok ==>
        && h < |old(handles)|
        && engine.bounds == Admissible(old(engine.bounds), RequestOf(old(handles)[h], engine.maxLen))
      ensures ok ==> Valid() && inbox == old(inbox[1..]) && pending == old(pending) + [h]
      ensures ok ==> |handles| == |old(handles)| && handles == old(handles)[h := handles[h]] && handles[h].seqId.Some?
      ensures ok ==> Progressed(old(handles), handles)
    {
      hide LLMEngine.Inv, Over, BooksOk, StreamsOk, LLMEngine.Roomy;
      HeadQueued(inbox, handles, h);
      ok := Register(h);
      if !ok { return; }
      ghost var id := handles[h].seqId.value;
      RegisteredBooks(old(pending), old(handles), old(engine.seqs), engine.maxLen, h, id, handles, engine.seqs);
      PopInbox(inbox, old(handles), handles, h);
      inbox := inbox[1..];
    }

    /** Take the cancellation at the head of the inbox: its request has been registered. */
    method TakeCancel(h: nat)
      requires Valid() && inbox != [] && inbox[0] == Cancel(h) && point != Dispatching
      modifies this`inbox, this`handles, this`pending, engine`waiting, engine`running, engine`seqs, engine.cache
      ensures Valid() && inbox == old(inbox[1..])
      ensures h < |old(handles)| && old(handles)[h].seqId.Some?
      ensures h !in old(pending) ==> handles == old(handles) && pending == old(pending)
      ensures h in old(pending) ==>
        && |handles| == |old(handles)| && handles == old(handles)[h := handles[h]]
        && handles[h].queue == old(handles)[h].queue + [Done(Cancelled)] && pending == Removed(old(pending), h)
      ensures Progressed(old(handles), handles) && (old(engine.Roomy()) ==> engine.Roomy())
    {
      hide LLMEngine.Inv, Over, BooksOk, LLMEngine.Roomy, Queued, InEngine, CaughtUp;
      CancelFindsHandle(inbox, handles, h);
      CancelHandle(h);
      if h in old(pending) {
        CancelledBooks(old(pending), old(handles), old(engine.seqs), engine.maxLen, h, handles, engine.seqs);
        PopInbox(inbox, old(handles), handles, h);
      } else {
        PopInbox(inbox, handles, handles, h);
      }
      inbox := inbox[1..];
    }

    /** Step the engine once. False is an exception, which ends the thread. */
    method StepEngine() returns (ok: bool)
      requires Valid() && point == Ready && pending != []
      modifies this`point, engine`waiting, engine`running, engine`seqs, engine.cache
      ensures ok ==> Valid() && point == Dispatching
      ensures !ok ==> handles == old(handles) && engine.OutOfBlocks()
      ensures engine.bounds.Some? ==> ok
      ensures ok && old(engine.Roomy()) ==>
        engine.Roomy() && Work(engine.seqs, engine.nextId) < Work(old(engine.seqs), engine.nextId)
    {
      hide LLMEngine.Inv, LLMEngine.Roomy, BooksOk, StreamsOk, RestOk, InboxOk;
      WorkHere();
      ghost var moved, kind;
      ok, moved, kind := engine.Step();
      if !ok { return; }
      point := Dispatching;
      SteppedBooks(pending, handles, old(engine.seqs), engine.seqs, engine.maxLen);
    }

    lemma WorkHere()
      requires Valid() && pending != [] && point != Dispatching
      ensures engine.HasWork()
    {
      hide LLMEngine.Inv, Over, BooksOk, Streaming;
      assert pending[0] in pending;
      engine.KeptHere(handles[pending[0]].seqId.value);
    }

    /** Deliver what the step generated, and let go of the sequences that are finished. */
    method Dispatch()
      requires Valid() && point == Dispatching
      modifies this`point, this`handles, this`pending, engine`seqs
      ensures Valid() && point == Top && Progressed(old(handles), handles)
      ensures SameOrder(old(pending), pending)
      ensures Work(engine.seqs, engine.nextId) <= Work(old(engine.seqs), engine.nextId)
      ensures old(engine.Roomy()) ==> engine.Roomy()
    {
      hide LLMEngine.Inv, LLMEngine.Roomy, Over, BooksOk, Streaming, InboxOk;
      DeliverAll();
      ForgetEnded();
      point := Top;
    }

    method DeliverAll()
      requires Valid() && point == Dispatching
      modifies this`handles
      ensures engine.Inv() && BooksOk(pending, handles, engine.seqs) && InboxOk(inbox, handles)
      ensures Progressed(old(handles), handles) && |handles| == |old(handles)|
      ensures forall h :: h in pending ==> Sent(engine.net, engine.eos, engine.maxLen, handles[h], engine.seqs)
      ensures forall h :: 0 <= h < |handles| && h !in pending ==> handles[h] == old(handles)[h]
    {
      hide LLMEngine.Inv, Over, InboxOk, FinishReason, Queued, Sent, Streaming, BooksOk, Progressed, RestOk;
      DistinctPending(pending, handles, engine.seqs);
      EverythingFollowed(handles);
      for i := 0 to |pending|
        invariant engine.Inv() && |handles| == |old(handles)|
        invariant forall h :: 0 <= h < |handles| ==>
          handles[h].seqId == old(handles)[h].seqId && handles[h].abandoned == old(handles)[h].abandoned
        invariant forall j :: 0 <= j < i ==> Sent(engine.net, engine.eos, engine.maxLen, handles[pending[j]], engine.seqs)
        invariant forall j :: i <= j < |pending| ==> handles[pending[j]] == old(handles)[pending[j]]
        invariant forall h :: 0 <= h < |handles| && h !in pending ==> handles[h] == old(handles)[h]
        invariant Progressed(old(handles), handles)
      {
        var h := pending[i];
        assert h in pending && InEngine(handles[h], engine.seqs, engine.maxLen);
        DeliverOne(h, old(handles));
      }
      InboxDelivered(inbox, old(handles), handles, pending);
      RenamedBooks(pending, old(handles), handles, engine.seqs);
    }

    method DeliverOne(h: nat, ghost first: seq<Handle>)
      requires engine.Inv() && h < |handles| && InEngine(handles[h], engine.seqs, engine.maxLen)
      requires Progressed(first, handles) && |first| == |handles|
      modifies this`handles
      ensures |handles| == |old(handles)| && handles == old(handles)[h := handles[h]]
      ensures Sent(engine.net, engine.eos, engine.maxLen, handles[h], engine.seqs)
      ensures handles[h].seqId == old(handles)[h].seqId && handles[h].abandoned == old(handles)[h].abandoned
      ensures Progressed(first, handles)
    {
      hide LLMEngine.Inv, Over, FinishReason, Streaming, Kept, FinOk, Followed;
      var q := engine.seqs[handles[h].seqId.value];
      engine.KeptHere(handles[h].seqId.value);
      var r := Deliver(handles[h], q, engine.net, engine.eos, engine.maxLen);
      handles := handles[h := r];
      ProgressedStep(first, old(handles), handles, h);
    }

    /** Finished sequences leave the pending table and the engine. */
    method ForgetEnded()
      requires engine.Inv() && BooksOk(pending, handles, engine.seqs) && InboxOk(inbox, handles) && point == Dispatching
      requires forall h :: h in pending ==> Sent(engine.net, engine.eos, engine.maxLen, handles[h], engine.seqs)
      requires forall h :: 0 <= h < |handles| && h !in pending ==>
        Queued(handles[h]) || Over(engine.net, engine.eos, engine.maxLen, handles[h])
      modifies this`pending, engine`seqs
      ensures Valid() && StreamsOk(pending, handles, engine.seqs, engine.maxLen, true)
      ensures SameOrder(old(pending), pending)
      ensures forall h :: h in pending <==> h in old(pending) && h < |handles| && !handles[h].terminal
      ensures Work(engine.seqs, engine.nextId) <= Work(old(engine.seqs), engine.nextId)
      ensures old(engine.Roomy()) ==> engine.Roomy()
    {
      hide LLMEngine.Inv, LLMEngine.Roomy, Over, Streaming, InboxOk, FinishReason, Sent, NoDup, BooksOk, Queued,
           SameOrder, StillOf;
      var all, still := pending, [];
      ForgetStart(all, handles, engine.seqs);
      for i := 0 to |all|
        invariant engine.Inv() && pending == all && Forgotten(all, i, handles, old(engine.seqs), engine.seqs)
        invariant StillOf(all, i, handles, still) && (old(engine.Roomy()) ==> engine.Roomy())
      {
        var h := all[i];
        ForgetFinds(engine.net, engine.eos, engine.maxLen, all, i, handles, old(engine.seqs), engine.seqs);
        var id := handles[h].seqId.value;
        ghost var was, list := engine.seqs, still;
        if handles[h].terminal {
          engine.KeptHere(id);
          engine.Forget(id);
        } else {
          still := still + [h];
        }
        ForgetNext(all, i, handles, old(engine.seqs), was, engine.seqs);
        StillNext(all, i, handles, old(engine.seqs), list, still);
      }
      StillAll(all, handles, still);
      pending := still;
      WorkSubset(old(engine.seqs), engine.seqs, engine.nextId);
      ForgottenBooks(engine.net, engine.eos, engine.maxLen, all, handles, still, old(engine.seqs), engine.seqs);
    }

    /** Move the stop marker behind everything already in the inbox. */
    method RotateStop()
      requires Valid() && inbox != [] && inbox[0].Stop?
      modifies this`inbox
      ensures Valid() && inbox == old(inbox[1..]) + [Item.Stop]
    {
      hide LLMEngine.Inv, BooksOk, StreamsOk, RestOk;
      StopMoves(inbox, handles);
      inbox := inbox[1..] + [Item.Stop];
    }

    /** Take the stop marker. */
    method TakeStop()
      requires Valid() && inbox != [] && inbox[0].Stop?
      modifies this`inbox
      ensures Valid() && inbox == old(inbox[1..])
    {
      hide LLMEngine.Inv, BooksOk, StreamsOk, RestOk;
      StopMoves(inbox, handles);
      inbox := inbox[1..];
    }

    method GoTo(to: Point)
      requires Valid() && point != Dispatching && to != Dispatching
      modifies this`point
      ensures Valid() && point == to
    {
      hide LLMEngine.Inv, InboxOk, BooksOk, StreamsOk, RestOk;
      point := to;
    }

    /** Take one item that is not the stop marker. */
    method Intake() returns (ok: bool)
      requires Valid() && inbox != [] && !inbox[0].Stop? && point != Dispatching
      modifies this`inbox, this`handles, this`pending
      modifies engine`waiting, engine`running, engine`seqs, engine`nextId, engine`bounds, engine.cache
      ensures !ok ==> handles == old(handles)
      ensures !ok <==> TooLong(old(inbox[0]), old(handles), engine.maxLen)
      ensures old(Serviceable()) ==> ok && Serviceable()
      ensures ok ==> Valid() && inbox == old(inbox[1..]) && Progressed(old(handles), handles)
      ensures ok ==> Took(old(inbox[0]), old(handles), old(pending), handles, pending)
      ensures ok && old(engine.Roomy()) ==> engine.Roomy()
    {
      hide LLMEngine.Inv, BooksOk, StreamsOk, RestOk, InboxOk, Progressed, FitsSpan, RequestOf;
      assert inbox[0] in inbox;
      assert Serviceable() && inbox[0].Submit? ==>
        FitsSpan(RequestOf(handles[inbox[0].h], engine.maxLen), engine.bounds.value.span);
      match inbox[0] {
        case Submit(h) =>
          ok := TakeSubmit(h);
        case Cancel(h) =>
          TakeCancel(h);
          ok := true;
      }
      if ok { ServableOn(old(engine.bounds), old(inbox), old(handles), inbox, handles, engine.maxLen); }
    }

    /** The engine is provisioned for everything that still waits in the inbox. */
    ghost predicate Serviceable()
      reads this, engine
    {
      Servable(engine.bounds, inbox, handles, engine.maxLen)
    }

    function AfterDrain(wasIdle: bool): Point
      reads this
    {
      if wasIdle && pending != [] && coalesce then Coalesce else Ready
    }

    /** A turn at which the worker may look at its inbox. */
    method Receive(timeout: bool) returns (r: Turned)
      requires Valid() && point != Ready && point != Dispatching
      modifies this`inbox, this`handles, this`pending, this`point
      modifies engine`waiting, engine`running, engine`seqs, engine`nextId, engine`bounds, engine.cache
      ensures r == Crashed ==> handles == old(handles)
      ensures r == Crashed ==> old(inbox) != [] && TooLong(old(inbox)[0], old(handles), engine.maxLen)
      ensures old(Serviceable()) ==> r != Crashed && Serviceable()
      ensures r != Crashed ==> Valid() && Progressed(old(handles), handles)
      ensures r == Stopped ==> pending == [] && old(inbox) == [Item.Stop] + inbox
      ensures r == Blocked ==> inbox == old(inbox) == [] && handles == old(handles) && (point == Coalesce || pending == [])
      ensures r == Blocked && timeout ==> point == Top && pending == []
      ensures r == Went ==> Goes(old(point), point, old(inbox), old(pending), pending, timeout, coalesce, target)
      ensures r == Went ==> inbox == Rest(old(point), old(inbox), old(pending), timeout, target)
      ensures r == Went ==>
        if Takes(old(point), old(inbox), old(pending), timeout, target)
        then Took(old(inbox)[0], old(handles), old(pending), handles, pending)
        else handles == old(handles) && pending == old(pending)
      ensures r != Crashed && old(engine.Roomy()) ==> engine.Roomy()
      ensures r == Went ==>
        || Items(inbox) < Items(old(inbox))
        || (Items(inbox) == Items(old(inbox)) && Rank(point, pending) < old(Rank(point, pending))
            && engine.seqs == old(engine.seqs) && engine.nextId == old(engine.nextId))
    {
      hide Valid, LLMEngine.Inv, LLMEngine.Roomy, BooksOk, StreamsOk, RestOk, InboxOk, Work, Followed, Servable, TooLong,
           Removed, FitsSpan, RequestOf, Items, Progressed, Took;
      EverythingFollowed(handles);
      Rotated(engine.bounds, inbox, handles, engine.maxLen);
      if inbox != [] {
        ItemsStop(inbox[1..]);
        ItemsHead(inbox);
      }
      match point {
        case Top =>
          if pending != [] {
            GoTo(Drain(false));
          } else if inbox == [] {
            return Blocked;
          } else if inbox[0].Stop? {
            TakeStop();
            return Stopped;
          } else {
            var ok := Intake();
            if !ok { return Crashed; }
            GoTo(Drain(true));
          }
        case Drain(wasIdle) =>
          if inbox == [] {
            GoTo(AfterDrain(wasIdle));
          } else if inbox[0].Stop? {
            RotateStop();
            GoTo(AfterDrain(wasIdle));
          } else {
            var ok := Intake();
            if !ok { return Crashed; }
          }
        case Coalesce =>
          if |pending| >= target || timeout {
            GoTo(Ready);
          } else if inbox == [] {
            return Blocked;
          } else if inbox[0].Stop? {
            RotateStop();
            GoTo(Ready);
          } else {
            var ok := Intake();
            if !ok { return Crashed; }
          }
      }
      r := Went;
    }

    /** One turn of the worker's loop, up to its next touch of shared state. `timeout` is the
        clock of the coalescing wait. */
    method Turn(timeout: bool) returns (r: Turned)
      requires Valid()
      modifies this`inbox, this`handles, this`pending, this`point
      modifies engine`waiting, engine`running, engine`seqs, engine`nextId, engine`bounds, engine.cache
      ensures r == Crashed ==> handles == old(handles)
      ensures r == Crashed ==>
        engine.OutOfBlocks() || (old(inbox) != [] && TooLong(old(inbox)[0], old(handles), engine.maxLen))
      ensures old(Serviceable()) ==> r != Crashed && Serviceable()
      ensures r != Crashed ==> forall item :: item in inbox ==> item in old(inbox)
      ensures r != Crashed ==> Valid() && Progressed(old(handles), handles)
      ensures r == Stopped ==> pending == [] && old(inbox) == [Item.Stop] + inbox
      ensures r == Blocked ==> inbox == old(inbox) == [] && handles == old(handles) && (point == Coalesce || pending == [])
      ensures r == Blocked && timeout ==> point == Top && pending == []
      ensures r == Went ==> Goes(old(point), point, old(inbox), old(pending), pending, timeout, coalesce, target)
      ensures r == Went ==> inbox == Rest(old(point), old(inbox), old(pending), timeout, target)
      ensures r == Went && old(point) != Dispatching ==>
        if Takes(old(point), old(inbox), old(pending), timeout, target)
        then Took(old(inbox)[0], old(handles), old(pending), handles, pending)
        else handles == old(handles) && pending == old(pending)
      ensures r != Crashed && old(engine.Roomy()) ==> engine.Roomy()
      ensures r == Went && old(engine.Roomy()) ==>
        || Items(inbox) < Items(old(inbox))
        || (Items(inbox) == Items(old(inbox)) && Work(engine.seqs, engine.nextId) < old(Work(engine.seqs, engine.nextId)))
        || (Items(inbox) == Items(old(inbox)) && Work(engine.seqs, engine.nextId) <= old(Work(engine.seqs, engine.nextId))
            && Rank(point, pending) < old(Rank(point, pending)))
    {
      hide Valid, LLMEngine.Inv, LLMEngine.Roomy, BooksOk, StreamsOk, RestOk, InboxOk, Work, Followed, Servable, TooLong,
           Removed, FitsSpan, RequestOf, Items, Progressed, Took;
      EverythingFollowed(handles);
      Rotated(engine.bounds, inbox, handles, engine.maxLen);
      match point {
        case Ready =>
          if pending == [] {
            GoTo(Top);
          } else {
            var ok := StepEngine();
            if !ok { return Crashed; }
          }
          r := Went;
        case Dispatching =>
          Dispatch();
          ServableOn(engine.bounds, inbox, old(handles), inbox, handles, engine.maxLen);
          r := Went;
        case _ =>
          RestHolds(point, inbox, pending, timeout);
          r := Receive(timeout);
      }
    }

    /** Nothing joins the inbox by a turn. */
    lemma RestHolds(from: Point, items: seq<Item>, had: seq<nat>, timeout: bool)
      ensures forall item :: item in Rest(from, items, had, timeout, target) ==> item in items
    {
    }

    /** With no further client action the worker runs dry. It is ended by an exception only if
        the pool ran dry or a prompt was over-length, and not at all if the engine is provisioned
        for what waits. Otherwise every registered request is over: blocked, that is all of them;
        stopped, all but those whose submission came behind the stop marker. */
    method RunDry() returns (r: Turned)
      requires Valid() && engine.Roomy()
      modifies this`inbox, this`handles, this`pending, this`point
      modifies engine`waiting, engine`running, engine`seqs, engine`nextId, engine`bounds, engine.cache
      ensures r != Went && (r == Crashed || (Valid() && pending == [] && Progressed(old(handles), handles)))
      ensures r == Crashed ==>
        engine.OutOfBlocks() || exists item :: item in old(inbox) && TooLong(item, old(handles), engine.maxLen)
      ensures old(Serviceable()) ==> r != Crashed
      ensures r == Blocked ==> forall h :: 0 <= h < |handles| ==> Over(engine.net, engine.eos, engine.maxLen, handles[h])
      ensures r == Stopped ==> forall h :: 0 <= h < |handles| ==>
        (Over(engine.net, engine.eos, engine.maxLen, handles[h]) <==> Submit(h) !in inbox)
    {
      hide LLMEngine.Inv, LLMEngine.Roomy, BooksOk, StreamsOk, Over, Work, Followed, Servable, RestOk, InboxOk;
      EverythingFollowed(handles);
      Submitters(inbox, handles);
      r := Went;
      while r == Went
        invariant r != Crashed ==> Valid() && Progressed(old(handles), handles) && engine.Roomy()
        invariant r == Stopped || r == Blocked ==> pending == []
        invariant r == Blocked ==> inbox == []
        invariant r != Crashed ==> forall item :: item in inbox ==> item in old(inbox)
        invariant old(Serviceable()) ==> r != Crashed && Serviceable()
        invariant r == Crashed ==>
          engine.OutOfBlocks() || exists item :: item in old(inbox) && TooLong(item, old(handles), engine.maxLen)
        decreases r == Went, Items(inbox), Work(engine.seqs, engine.nextId), Rank(point, pending)
      {
        ghost var was, items := handles, inbox;
        r := Turn(true);
        if r != Crashed {
          ProgressedOn(old(handles), was, handles);
        } else if items != [] && TooLong(items[0], was, engine.maxLen) {
          StillTooLong(items, old(inbox), old(handles), was, engine.maxLen);
        }
      }
      if r == Blocked || r == Stopped {
        forall h | 0 <= h < |handles|
          ensures Over(engine.net, engine.eos, engine.maxLen, handles[h]) <==> Submit(h) !in inbox
        {
          OverOrQueued(h);
        }
      }
    }

    /** With nothing pending a handle is over unless its submission was never taken. */
    lemma OverOrQueued(h: nat)
      requires Valid() && pending == [] && h < |handles|
      ensures Over(engine.net, engine.eos, engine.maxLen, handles[h]) <==> Submit(h) !in inbox
    {
      hide LLMEngine.Inv, BooksOk, StreamsOk, Served, Kept, FinishReason;
    }
  }

  /** The submission of an over-length prompt. */
  predicate TooLong(item: Item, handles: seq<Handle>, maxLen: Option<nat>) {
    item.Submit? && item.h < |handles| && maxLen.Some? && |handles[item.h].prompt| > maxLen.value
  }

  ghost predicate Servable(b: Option<Bounds>, inbox: seq<Item>, handles: seq<Handle>, maxLen: Option<nat>) {
    && b.Some?
    && forall item :: item in inbox && item.Submit? ==>
         && item.h < |handles| && !TooLong(item, handles, maxLen)
         && FitsSpan(RequestOf(handles[item.h], maxLen), b.value.span)
  }

  lemma ServableOn(b: Option<Bounds>, inbox: seq<Item>, handles: seq<Handle>, items: seq<Item>, now: seq<Handle>,
                   maxLen: Option<nat>)
    requires Progressed(handles, now) && forall item :: item in items ==> item in inbox
    ensures Servable(b, inbox, handles, maxLen) ==> Servable(b, items, now, maxLen)
  {
    hide FitsSpan;
    if Servable(b, inbox, handles, maxLen) {
      forall item | item in items && item.Submit?
        ensures item.h < |now| && !TooLong(item, now, maxLen) && RequestOf(now[item.h], maxLen) == RequestOf(handles[item.h], maxLen)
      {
        assert Followed(handles[item.h], now[item.h]);
      }
    }
  }

  /** Taking the head off the inbox, or moving it to the end, adds nothing to it. */
  lemma Rotated(b: Option<Bounds>, inbox: seq<Item>, handles: seq<Handle>, maxLen: Option<nat>)
    ensures Servable(b, inbox, handles, maxLen) ==> b.Some?
    ensures inbox != [] && Servable(b, inbox, handles, maxLen) ==>
      && Servable(b, inbox[1..], handles, maxLen)
      && (inbox[0].Stop? ==> Servable(b, inbox[1..] + [Item.Stop], handles, maxLen))
  {
    hide FitsSpan, TooLong;
  }

  lemma Submitters(inbox: seq<Item>, handles: seq<Handle>)
    requires InboxOk(inbox, handles)
    ensures forall item :: item in inbox && item.Submit? ==> item.h < |handles|
  {
  }

  lemma StillTooLong(items: seq<Item>, inbox: seq<Item>, first: seq<Handle>, handles: seq<Handle>, maxLen: Option<nat>)
    requires items != [] && TooLong(items[0], handles, maxLen) && Progressed(first, handles)
    requires forall item :: item in items ==> item in inbox
    requires forall item :: item in inbox && item.Submit? ==> item.h < |first|
    ensures exists item :: item in inbox && TooLong(item, first, maxLen)
  {
    var item := items[0];
    assert item in items && Followed(first[item.h], handles[item.h]);
  }

  /** What holds of a pending handle once its tokens are sent: still streaming, or over
      because its sequence is finished. */
  ghost predicate Sent(net: Net, eos: Option<Token>, maxLen: Option<nat>, hd: Handle, seqs: Table) {
    && hd.seqId.Some? && hd.seqId.value in seqs
    && var q := seqs[hd.seqId.value];
       && hd.terminal == (q.status == Finished)
       && (if q.status == Finished then Over(net, eos, maxLen, hd) else Streaming(hd, q, maxLen) && hd.sent == |q.outputs|)
  }

  lemma DistinctPending(pending: seq<nat>, handles: seq<Handle>, seqs: Table)
    requires BooksOk(pending, handles, seqs)
    ensures forall i, j :: 0 <= i < |pending| && 0 <= j < |pending| && i != j ==> pending[i] != pending[j]
    ensures forall i :: 0 <= i < |pending| ==> pending[i] < |handles|
  {
    forall i | 0 <= i < |pending| ensures pending[i] < |handles| { assert pending[i] in pending; }
  }

  lemma EverythingFollowed(handles: seq<Handle>)
    ensures Progressed(handles, handles)
  {
  }

  lemma RenamedBooks(pending: seq<nat>, was: seq<Handle>, now: seq<Handle>, seqs: Table)
    requires BooksOk(pending, was, seqs) && |now| == |was|
    requires forall h :: 0 <= h < |now| ==> now[h].seqId == was[h].seqId
    ensures BooksOk(pending, now, seqs)
  {
    forall id | id in seqs ensures Owned(pending, now, id) {
      assert Owned(pending, was, id);
      var h :| h in pending && h < |was| && was[h].seqId == Some(id);
      assert now[h].seqId == Some(id);
    }
  }

  /** The sequences of the terminal handles among the first `i` are gone, no others. */
  ghost predicate Forgotten(all: seq<nat>, i: nat, handles: seq<Handle>, was: Table, now: Table) {
    && i <= |all| && BooksOk(all, handles, was)
    && (forall id :: id in now ==> id in was && now[id] == was[id])
    && (forall j :: 0 <= j < |all| ==> all[j] < |handles| && handles[all[j]].seqId.Some?)
    && (forall j :: 0 <= j < |all| && handles[all[j]].seqId.value in was ==>
          (handles[all[j]].seqId.value in now <==> !(j < i && handles[all[j]].terminal)))
  }

  ghost predicate StillOf(all: seq<nat>, i: nat, handles: seq<Handle>, still: seq<nat>) {
    && i <= |all| && NoDup(still) && SameOrder(all[..i], still) && (forall h :: h in all ==> h < |handles|)
    && forall h :: h in still <==> h in all[..i] && h < |handles| && !handles[h].terminal
  }

  lemma StillAll(all: seq<nat>, handles: seq<Handle>, still: seq<nat>)
    requires StillOf(all, |all|, handles, still)
    ensures SameOrder(all, still) && forall h :: h in still <==> h in all && h < |handles| && !handles[h].terminal
  {
    hide SameOrder;
    assert all[..|all|] == all;
  }

  lemma ForgetStart(all: seq<nat>, handles: seq<Handle>, seqs: Table)
    requires BooksOk(all, handles, seqs)
    ensures Forgotten(all, 0, handles, seqs, seqs) && StillOf(all, 0, handles, [])
  {
    forall j | 0 <= j < |all| ensures all[j] < |handles| && handles[all[j]].seqId.Some? { assert all[j] in all; }
  }

  lemma ForgetFinds(net: Net, eos: Option<Token>, maxLen: Option<nat>, all: seq<nat>, i: nat, handles: seq<Handle>,
                    was: Table, now: Table)
    requires Forgotten(all, i, handles, was, now) && i < |all|
    requires forall h :: h in all ==> h < |handles| && Sent(net, eos, maxLen, handles[h], was)
    ensures all[i] < |handles| && handles[all[i]].seqId.Some? && handles[all[i]].seqId.value in now
    ensures handles[all[i]].terminal <==> now[handles[all[i]].seqId.value].status == Finished
  {
    hide Over, Streaming, BooksOk;
    assert all[i] in all && Sent(net, eos, maxLen, handles[all[i]], was);
  }

  lemma ForgetNext(all: seq<nat>, i: nat, handles: seq<Handle>, first: Table, was: Table, now: Table)
    requires Forgotten(all, i, handles, first, was) && i < |all| && all[i] < |handles| && handles[all[i]].seqId.Some?
    requires now == if handles[all[i]].terminal then was - {handles[all[i]].seqId.value} else was
    ensures Forgotten(all, i + 1, handles, first, now)
  {
    hide Owned;
    forall j | 0 <= j < |all| && j != i ensures handles[all[j]].seqId != handles[all[i]].seqId {
      assert all[j] in all && all[i] in all && all[j] != all[i];
    }
  }

  lemma StillNext(all: seq<nat>, i: nat, handles: seq<Handle>, seqs: Table, list: seq<nat>, still: seq<nat>)
    requires StillOf(all, i, handles, list) && BooksOk(all, handles, seqs) && i < |all| && all[i] < |handles|
    requires still == if handles[all[i]].terminal then list else list + [all[i]]
    ensures StillOf(all, i + 1, handles, still)
  {
    hide Owned, SameOrder;
    assert all[..i + 1] == all[..i] + [all[i]] && all[i] !in all[..i];
    if !handles[all[i]].terminal {
      NoDupAppend(list, all[i]);
      OrderJoined(all[..i], list, [all[i]]);
    } else {
      OrderPrefix(all[..i], list, [all[i]]);
    }
  }

  lemma ForgottenBooks(net: Net, eos: Option<Token>, maxLen: Option<nat>, all: seq<nat>, handles: seq<Handle>,
                       still: seq<nat>, was: Table, now: Table)
    requires Forgotten(all, |all|, handles, was, now) && StillOf(all, |all|, handles, still)
    requires forall h :: h in all ==> h < |handles| && Sent(net, eos, maxLen, handles[h], was)
    ensures BooksOk(still, handles, now) && StreamsOk(still, handles, now, maxLen, true)
    ensures forall h :: h in all && h !in still ==> Over(net, eos, maxLen, handles[h])
  {
    hide Over, Streaming, NoDup;
    assert all[..|all|] == all;
    forall h | h in all ensures handles[h].seqId.value in now <==> !handles[h].terminal {
      var j :| 0 <= j < |all| && all[j] == h;
      assert Sent(net, eos, maxLen, handles[h], was);
    }
    forall id | id in now ensures Owned(still, handles, id) {
      assert Owned(all, handles, id);
      var h :| h in all && h < |handles| && handles[h].seqId == Some(id);
      assert h in still;
    }
    forall h | h in still ensures InEngine(handles[h], now, maxLen) && CaughtUp(handles[h], now) {
      assert Sent(net, eos, maxLen, handles[h], was);
    }
  }

  lemma HeadQueued(inbox: seq<Item>, handles: seq<Handle>, h: nat)
    requires InboxOk(inbox, handles) && inbox != [] && inbox[0] == Submit(h)
    ensures h < |handles| && Queued(handles[h]) && handles[h].seqId.None? && handles[h].starts == 0
    ensures handles[h].prompt != []
  {
  }

  /** What a turn of the worker's loop came to: it went on, it waits for the inbox, it took the
      stop marker while idle, or an exception ended the thread. */
  datatype Turned = Went | Blocked | Stopped | Crashed

  /** Where a turn that goes on leads. A worker with work never waits: it drains the inbox and steps.
      One that was idle may first gather a burst, until enough are pending, the clock runs out or
      the worker is to stop. Every step is followed by its delivery. */
  ghost predicate Goes(from: Point, to: Point, inbox: seq<Item>, had: seq<nat>, has: seq<nat>, timeout: bool,
                       coalesce: bool, target: nat) {
    match from
    case Top => to == Drain(had == [])
    case Drain(wasIdle) =>
      if inbox != [] && !inbox[0].Stop? then to == from else to == if wasIdle && has != [] && coalesce then Coalesce else Ready
    case Coalesce => to == if |had| >= target || timeout || (inbox != [] && inbox[0].Stop?) then Ready else Coalesce
    case Ready => to == if had == [] then Top else Dispatching
    case Dispatching => to == Top
  }

  /** Whether such a turn looks at the inbox. */
  predicate Looks(from: Point, had: seq<nat>, timeout: bool, target: nat) {
    match from
    case Top => had == []
    case Drain(_) => true
    case Coalesce => |had| < target && !timeout
    case Ready => false
    case Dispatching => false
  }

  /** ... and takes the item at its head. */
  predicate Takes(from: Point, inbox: seq<Item>, had: seq<nat>, timeout: bool, target: nat) {
    Looks(from, had, timeout, target) && inbox != [] && !inbox[0].Stop?
  }

  /** What is left in the inbox: an item that is taken goes, and a stop marker that is found goes
      behind everything that was there. */
  function Rest(from: Point, inbox: seq<Item>, had: seq<nat>, timeout: bool, target: nat): seq<Item> {
    if Takes(from, inbox, had, timeout, target) then inbox[1..]
    else if Looks(from, had, timeout, target) && inbox != [] then inbox[1..] + [Item.Stop]
    else inbox
  }

  /** What taking an item does: a submission becomes pending, a cancellation ends its stream unless
      that is over. */
  ghost predicate Took(item: Item, was: seq<Handle>, had: seq<nat>, now: seq<Handle>, has: seq<nat>) {
    match item
    case Submit(h) => h < |was| == |now| && now == was[h := now[h]] && now[h].seqId.Some? && has == had + [h]
    case Cancel(h) =>
      if h in had then
        && h < |was| == |now| && now == was[h := now[h]] && has == Removed(had, h)
        && now[h].queue == was[h].queue + [Done(Cancelled)]
      else now == was && has == had
    case Stop => false
  }

  /** Items other than the stop marker. */
  function Items(inbox: seq<Item>): nat {
    if inbox == [] then 0 else (if inbox[0].Stop? then 0 else 1) + Items(inbox[1..])
  }

  lemma ItemsHead(inbox: seq<Item>)
    requires inbox != []
    ensures Items(inbox) == (if inbox[0].Stop? then 0 else 1) + Items(inbox[1..])
  {
  }

  lemma {:induction false} ItemsStop(inbox: seq<Item>)
    ensures Items(inbox + [Item.Stop]) == Items(inbox)
  {
    if inbox == [] {
      assert inbox + [Item.Stop] == [Item.Stop];
    } else {
      ItemsStop(inbox[1..]);
      assert (inbox + [Item.Stop])[1..] == inbox[1..] + [Item.Stop];
    }
  }

  /** How far a turn is from the next engine step; a loop with nothing pending ends at `Top`. */
  function Rank(point: Point, pending: seq<nat>): nat {
    match point
    case Top => if pending == [] then 0 else 5
    case Drain(_) => 4
    case Coalesce => 3
    case Ready => 2
    case Dispatching => 6
  }

  lemma StopMoves(inbox: seq<Item>, handles: seq<Handle>)
    requires InboxOk(inbox, handles) && inbox != [] && inbox[0].Stop?
    ensures InboxOk(inbox[1..], handles) && InboxOk(inbox[1..] + [Item.Stop], handles)
  {
    hide InboxOk;
    StopTaken(inbox, handles);
    StopPut(inbox[1..], handles);
  }

  lemma StopTaken(inbox: seq<Item>, handles: seq<Handle>)
    requires InboxOk(inbox, handles) && inbox != [] && inbox[0].Stop?
    ensures InboxOk(inbox[1..], handles)
  {
    forall h | 0 <= h < |handles| && handles[h].seqId.None? ensures Submit(h) in inbox[1..] {
      assert Submit(h) in inbox;
      var i :| 0 <= i < |inbox| && inbox[i] == Submit(h);
      assert inbox[1..][i - 1] == Submit(h);
    }
  }

  lemma StopPut(inbox: seq<Item>, handles: seq<Handle>)
    requires InboxOk(inbox, handles)
    ensures InboxOk(inbox + [Item.Stop], handles)
  {
  }

  lemma ProgressedOn(a: seq<Handle>, b: seq<Handle>, c: seq<Handle>)
    requires Progressed(a, b) && Progressed(b, c)
    ensures Progressed(a, c)
  {
    forall h | 0 <= h < |a| ensures Followed(a[h], c[h]) {
      assert Followed(a[h], b[h]) && Followed(b[h], c[h]);
    }
  }

  /** What the engine makes of a registered handle's request. */
  function FreshSequence(hd: Handle, maxLen: Option<nat>): Sequence {
    NewSequence(hd.prompt, hd.maxTokens, hd.ignoreEos, maxLen)
  }

  /** Streams only grow, requests stay what they are, consumers go of their own accord, and nothing
      follows a `Done`. */
  ghost predicate Progressed(was: seq<Handle>, now: seq<Handle>) {
    && |was| <= |now|
    && forall h :: 0 <= h < |was| ==> Followed(was[h], now[h])
  }

  ghost predicate Followed(hd: Handle, r: Handle) {
    && r.prompt == hd.prompt && r.maxTokens == hd.maxTokens && r.ignoreEos == hd.ignoreEos
    && hd.queue <= r.queue && r.abandoned == hd.abandoned && (hd.terminal ==> r == hd)
  }

  lemma ProgressedStep(first: seq<Handle>, was: seq<Handle>, now: seq<Handle>, h: nat)
    requires Progressed(first, was) && h < |was| == |first| == |now| && now == was[h := now[h]] && Followed(was[h], now[h])
    ensures Progressed(first, now)
  {
    assert Followed(first[h], was[h]);
  }

  /** What was sent stays a prefix of what is generated. */
  lemma StillStreaming(hd: Handle, q: Sequence, r: Sequence, maxLen: Option<nat>)
    requires Streaming(hd, q, maxLen) && Evolves(q, r)
    ensures Streaming(hd, r, maxLen)
  {
    assert q.outputs[..hd.sent] == r.outputs[..hd.sent];
  }

  /** Removing the head of the inbox once its handle is registered. */
  lemma PopInbox(inbox: seq<Item>, handles: seq<Handle>, now: seq<Handle>, h: nat)
    requires InboxOk(inbox, handles) && inbox != [] && (inbox[0] == Submit(h) || inbox[0] == Cancel(h))
    requires |now| == |handles| && h < |now| && now == handles[h := now[h]] && now[h].seqId.Some?
    requires now[h].abandoned == handles[h].abandoned && (inbox[0].Cancel? ==> handles[h].seqId.Some?)
    ensures InboxOk(inbox[1..], now)
  {
    forall x | 0 <= x < |now| && now[x].seqId.None? ensures Submit(x) in inbox[1..] {
      assert handles[x] == now[x] && Submit(x) in inbox;
      var i :| 0 <= i < |inbox| && inbox[i] == Submit(x);
      assert inbox[1..][i - 1] == Submit(x);
    }
    forall i | 0 <= i < |inbox[1..]| && inbox[1..][i].Submit? ensures Queued(now[inbox[1..][i].h]) {
      assert inbox[i + 1] == inbox[1..][i] && inbox[i + 1] != inbox[0];
    }
  }

  /** First in, first out: by the time a cancellation is taken, its request is registered. */
  lemma CancelFindsHandle(inbox: seq<Item>, handles: seq<Handle>, h: nat)
    requires InboxOk(inbox, handles) && inbox != [] && inbox[0] == Cancel(h)
    ensures h < |handles| && handles[h].seqId.Some? && handles[h].abandoned
  {
    assert handles[h].seqId.None? ==> Submit(h) in inbox;
  }

  /** Delivery does not concern unregistered handles. */
  lemma InboxDelivered(inbox: seq<Item>, was: seq<Handle>, now: seq<Handle>, pending: seq<nat>)
    requires InboxOk(inbox, was) && |now| == |was|
    requires forall h :: h in pending ==> h < |was| && was[h].seqId.Some?
    requires forall h :: 0 <= h < |now| && h !in pending ==> now[h] == was[h]
    requires forall h :: h in pending ==> now[h].seqId == was[h].seqId && now[h].abandoned == was[h].abandoned
    ensures InboxOk(inbox, now)
  {
    forall i | 0 <= i < |inbox| && inbox[i].Submit? ensures Queued(now[inbox[i].h]) {
      assert Queued(was[inbox[i].h]);
    }
    forall h | 0 <= h < |now| && now[h].seqId.None? ensures Submit(h) in inbox {
      assert was[h].seqId.None?;
    }
  }

  lemma {:induction false} WorkSubset(was: Table, now: Table, n: nat)
    requires forall id :: id in now ==> id in was && now[id] == was[id]
    ensures Work(now, n) <= Work(was, n)
  {
    if n > 0 { WorkSubset(was, now, n - 1); }
  }

  lemma {:induction false} RemovedNoDup(s: seq<nat>, x: nat)
    requires NoDup(s)
    ensures NoDup(Removed(s, x))
  {
    if s != [] {
      RemovedNoDup(Init(s), x);
      assert s == Init(s) + [Last(s)] && Last(s) !in Init(s);
      NoDupAppend(Removed(Init(s), x), Last(s));
    }
  }

  lemma {:induction false} RemovedOrder(s: seq<nat>, x: nat)
    ensures SameOrder(s, Removed(s, x))
  {
    if s != [] {
      hide SameOrder;
      RemovedOrder(Init(s), x);
      assert s == Init(s) + [Last(s)];
      if Last(s) == x {
        OrderPrefix(Init(s), Removed(Init(s), x), [x]);
      } else {
        OrderJoined(Init(s), Removed(Init(s), x), [Last(s)]);
      }
    } else {
      OrderKept(s);
    }
  }

  function Removed(s: seq<nat>, x: nat): (r: seq<nat>)
    ensures forall y :: y in r <==> y in s && y != x
  {
    if s == [] then []
    else
      assert s == Init(s) + [Last(s)];
      var rest := Removed(Init(s), x);
      if Last(s) == x then rest else rest + [Last(s)]
  }
}
