/** Runs of the engine: the tables between its steps, and what a run makes of one sequence. */
module Runs {
  import opened Options
  import opened Lists
  import opened Network
  import opened Greedy
  import opened Sequences
  import opened EngineRows
  import opened EngineLists

  /** The scheduler's lists and the pool's at the start of a step. */
  datatype Desk = Desk(waiting: seq<nat>, running: seq<nat>, freeSlots: seq<nat>, freeBlocks: seq<nat>) {
    predicate Pressed() {
      waiting != [] && running != [] && freeSlots != [] && freeBlocks == []
    }
  }

  /** One step: whom the scheduler preempted, and what the step executed. */
  datatype Stride = Stride(moved: seq<nat>, kind: Kind)

  /** The tables and the scheduler's lists before, between and after the steps of a run. */
  datatype Run = Run(tables: seq<Table>, desks: seq<Desk>, steps: seq<Stride>)

  /** The lists name exactly the queued and the running sequences of the table, each once. */
  ghost predicate Filed(seqs: Table, desk: Desk) {
    && NoDup(desk.waiting) && NoDup(desk.running) && (forall id :: id in desk.waiting ==> id !in desk.running)
    && (forall id :: id in seqs ==>
          (id in desk.waiting <==> seqs[id].status == Waiting) && (id in desk.running <==> seqs[id].status == Running))
  }

  /** A sequence is preempted exactly under block pressure; those preempted had the fewest outputs
      and go to the end of the queue, and the head of the queue goes to the end of the running list. */
  ghost predicate Scheduled(eos: Option<Token>, was: Table, now: Table, desk: Desk, moved: seq<nat>, after: Desk) {
    && Filed(was, desk) && (moved != [] <==> desk.Pressed())
    && Shifted(eos, was, now, desk.running, desk.waiting, moved, after.running, after.waiting)
  }

  ghost predicate StrideOk(net: Net, eos: Option<Token>, was: Table, now: Table, desk: Desk, step: Stride, after: Desk) {
    StepOf(net, was, now, step.moved, step.kind) && Scheduled(eos, was, now, desk, step.moved, after)
  }

  ghost predicate RunOk(net: Net, eos: Option<Token>, run: Run) {
    && |run.tables| == |run.desks| == |run.steps| + 1 && NoDup(run.desks[0].running)
    && forall t :: 0 <= t < |run.steps| ==>
         StrideOk(net, eos, run.tables[t], run.tables[t + 1], run.desks[t], run.steps[t], run.desks[t + 1])
  }

  function Longer(run: Run, step: Stride, now: Table, after: Desk): Run {
    Run(run.tables + [now], run.desks + [after], run.steps + [step])
  }

  lemma RunLonger(net: Net, eos: Option<Token>, run: Run, step: Stride, now: Table, after: Desk)
    requires RunOk(net, eos, run) && StrideOk(net, eos, Last(run.tables), now, Last(run.desks), step, after)
    ensures RunOk(net, eos, Longer(run, step, now, after))
  {
    hide StrideOk, NoDup;
    var more := Longer(run, step, now, after);
    forall t | 0 <= t < |more.steps|
      ensures StrideOk(net, eos, more.tables[t], more.tables[t + 1], more.desks[t], more.steps[t], more.desks[t + 1])
    {
      if t < |run.steps| {
        assert StrideOk(net, eos, run.tables[t], run.tables[t + 1], run.desks[t], run.steps[t], run.desks[t + 1]);
      }
    }
  }

  /** The run without its last step. */
  function Shorter(run: Run): Run
    requires |run.tables| == |run.desks| == |run.steps| + 1 && run.steps != []
  {
    Run(Init(run.tables), Init(run.desks), Init(run.steps))
  }

  lemma RunShorter(net: Net, eos: Option<Token>, run: Run)
    requires RunOk(net, eos, run) && run.steps != []
    ensures RunOk(net, eos, Shorter(run))
    ensures Shorter(run).tables[0] == run.tables[0] && Shorter(run).desks[0] == run.desks[0]
    ensures StepOf(net, Last(Shorter(run).tables), Last(run.tables), Last(run.steps).moved, Last(run.steps).kind)
    ensures Scheduled(eos, Last(Shorter(run).tables), Last(run.tables), Last(Shorter(run).desks), Last(run.steps).moved,
                      Last(run.desks))
  {
    hide StepOf, Scheduled, NoDup;
    var less, n := Shorter(run), |run.steps| - 1;
    assert StrideOk(net, eos, run.tables[n], run.tables[n + 1], run.desks[n], run.steps[n], run.desks[n + 1]);
    forall t | 0 <= t < |less.steps|
      ensures StrideOk(net, eos, less.tables[t], less.tables[t + 1], less.desks[t], less.steps[t], less.desks[t + 1])
    {
      assert StrideOk(net, eos, run.tables[t], run.tables[t + 1], run.desks[t], run.steps[t], run.desks[t + 1]);
    }
  }

  /** How many steps preempted `id`. */
  function Moved(steps: seq<Stride>, id: nat): nat {
    if steps == [] then 0 else Moved(Init(steps), id) + if id in Last(steps).moved then 1 else 0
  }

  /** A sequence's record counts exactly the preemptions of the run. */
  lemma {:induction false} RunPreempts(net: Net, eos: Option<Token>, run: Run, id: nat)
    requires RunOk(net, eos, run) && id in run.tables[0]
    ensures id in Last(run.tables)
    ensures Last(run.tables)[id].preempts == run.tables[0][id].preempts + Moved(run.steps, id)
    ensures Last(run.tables)[id].Req() == run.tables[0][id].Req()
    decreases |run.steps|
  {
    if run.steps != [] {
      RunShorter(net, eos, run);
      RunPreempts(net, eos, Shorter(run), id);
      StepCounts(net, Last(Shorter(run).tables)[id], Last(run.tables)[id], id in Last(run.steps).moved, Last(run.steps).kind);
    }
  }

  lemma StepCounts(net: Net, q: Sequence, r: Sequence, moved: bool, kind: Kind)
    requires Advanced(net, q, r, moved, kind)
    ensures r.preempts == q.preempts + (if moved then 1 else 0) && r.Req() == q.Req()
    ensures r.misfed ==> q.misfed || (kind == Speculating && q.stale && !moved)
    ensures r.stale ==> q.stale || (kind == Decoding && q.carry.Some? && !moved)
    ensures r.verified ==> q.verified || kind == Speculating
  {
    hide GreedyTail;
  }

  /** A sequence is fed a stale carry only if a plain step passed over a held carry of it and a
      later speculative step ran. */
  lemma {:induction false} RunMisfed(net: Net, eos: Option<Token>, run: Run, id: nat)
    requires RunOk(net, eos, run) && id in run.tables[0] && !run.tables[0][id].misfed && !run.tables[0][id].stale
    requires id in Last(run.tables)
    ensures Last(run.tables)[id].stale ==> exists t :: 0 <= t < |run.steps| && HeldInPlainStep(run, id, t)
    ensures Last(run.tables)[id].misfed ==>
      exists t, u :: 0 <= t < u < |run.steps| && HeldInPlainStep(run, id, t) && run.steps[u].kind == Speculating
    decreases |run.steps|
  {
    if run.steps != [] {
      hide StepOf, Scheduled, StrideOk, RunOk, HeldInPlainStep;
      var less, n := Shorter(run), |run.steps| - 1;
      RunShorter(net, eos, run);
      RunSizes(net, eos, run);
      RunPreempts(net, eos, less, id);
      RunMisfed(net, eos, less, id);
      LastCounts(net, eos, run, id);
      HeldBefore(run, id);
      HeldLast(run, id);
    }
  }

  lemma RunSizes(net: Net, eos: Option<Token>, run: Run)
    requires RunOk(net, eos, run)
    ensures |run.tables| == |run.desks| == |run.steps| + 1
  {
  }

  /** What the last step of the run may do to a sequence. */
  lemma LastCounts(net: Net, eos: Option<Token>, run: Run, id: nat)
    requires RunOk(net, eos, run) && run.steps != [] && id in Last(Shorter(run).tables) && id in Last(run.tables)
    ensures
      var q, r, step := Last(Shorter(run).tables)[id], Last(run.tables)[id], Last(run.steps);
      && (r.misfed ==> q.misfed || (step.kind == Speculating && q.stale))
      && (r.stale ==> q.stale || (step.kind == Decoding && q.carry.Some?))
  {
    hide StrideOk;
    RunShorter(net, eos, run);
    StepCounts(net, Last(Shorter(run).tables)[id], Last(run.tables)[id], id in Last(run.steps).moved, Last(run.steps).kind);
  }

  /** What held in the shorter run holds in the run. */
  lemma HeldBefore(run: Run, id: nat)
    requires |run.tables| == |run.desks| == |run.steps| + 1 && run.steps != []
    ensures forall t: nat :: HeldInPlainStep(Shorter(run), id, t) ==> HeldInPlainStep(run, id, t) && t < |run.steps| - 1
    ensures forall u :: 0 <= u < |run.steps| - 1 ==> Shorter(run).steps[u] == run.steps[u]
  {
  }

  lemma HeldLast(run: Run, id: nat)
    requires |run.tables| == |run.desks| == |run.steps| + 1 && run.steps != []
    ensures
      var was := Last(Shorter(run).tables);
      Last(run.steps).kind == Decoding && id in was && was[id].carry.Some? ==> HeldInPlainStep(run, id, |run.steps| - 1)
  {
  }

  ghost predicate HeldInPlainStep(run: Run, id: nat, t: nat) {
    && t < |run.steps| && t < |run.tables| && run.steps[t].kind == Decoding
    && id in run.tables[t] && run.tables[t][id].carry.Some?
  }

  /** Its own greedy continuation so far, folded at most once. */
  ghost predicate Straight(net: Net, q: Sequence) {
    && q.orig != [] && q.fold <= |q.outputs| && q.prompt == q.orig + q.outputs[..q.fold]
    && (q.preempts == 0 ==> q.fold == 0) && GreedyTail(net, q.orig + q.outputs, |q.orig|)
  }

  lemma GreedyJoins(net: Net, all: seq<Token>, n: nat, m: nat)
    requires n <= m <= |all| && GreedyTail(net, all[..m], n) && GreedyTail(net, all, m)
    ensures GreedyTail(net, all, n)
  {
    forall k | n <= k < |all| ensures all[k] == Next(net, all[..k]) {
      if k < m { assert all[..m][..k] == all[..k] && all[..m][k] == all[k]; }
    }
  }

  /** Preempting such a sequence for the first time leaves it straight. */
  lemma PreemptStraight(net: Net, q: Sequence)
    requires Straight(net, q) && q.preempts == 0
    ensures Straight(net, Preempt(q))
  {
    hide GreedyTail;
    assert q.outputs[..0] == [] && q.orig + [] == q.orig;
  }

  lemma WorkStraight(net: Net, q: Sequence, r: Sequence, kind: Kind)
    requires Straight(net, q) && Worked(net, q, r, kind) && !r.spoiled
    ensures Straight(net, r)
  {
    hide GreedyTail;
    assert q.Fed() == q.orig + q.outputs;
    assert r.outputs[..r.fold] == q.outputs[..q.fold];
    assert r.Fed() == r.orig + r.outputs;
    assert r.Fed()[..|q.Fed()|] == q.Fed();
    GreedyJoins(net, r.Fed(), |q.orig|, |q.Fed()|);
  }

  lemma StepStraight(net: Net, q: Sequence, r: Sequence, moved: bool, kind: Kind)
    requires Straight(net, q) && Advanced(net, q, r, moved, kind) && !r.spoiled && r.preempts <= 1
    ensures Straight(net, r)
  {
    hide Straight;
    StepCounts(net, q, r, moved, kind);
    if moved { PreemptStraight(net, q); }
    WorkStraight(net, if moved then Preempt(q) else q, r, kind);
  }

  /** The slot of `id` never had a hole. */
  ghost predicate Untorn(run: Run, id: nat) {
    forall t :: 0 <= t < |run.tables| ==> id in run.tables[t] && !run.tables[t][id].spoiled
  }

  lemma UntornBefore(run: Run, id: nat)
    requires Untorn(run, id) && |run.tables| == |run.desks| == |run.steps| + 1 && run.steps != []
    ensures Untorn(Shorter(run), id) && id in Last(run.tables) && !Last(run.tables)[id].spoiled
  {
  }

  /** Whatever else ran, however the steps fell, and whether or not the window has room: a request
      preempted at most once whose slot was never torn got only greedy tokens of its own. */
  lemma {:induction false} RunIsGreedy(net: Net, eos: Option<Token>, run: Run, id: nat)
    requires RunOk(net, eos, run) && id in run.tables[0] && Straight(net, run.tables[0][id])
    requires run.tables[0][id].preempts + Moved(run.steps, id) <= 1
    requires Untorn(run, id)
    ensures id in Last(run.tables) && Straight(net, Last(run.tables)[id])
    decreases |run.steps|
  {
    if run.steps != [] {
      hide StepOf, StrideOk, Scheduled, RunOk, Straight, Advanced, Untorn;
      RunSizes(net, eos, run);
      var less := Shorter(run);
      RunShorter(net, eos, run);
      UntornBefore(run, id);
      RunIsGreedy(net, eos, less, id);
      RunPreempts(net, eos, less, id);
      var q, r := Last(less.tables)[id], Last(run.tables)[id];
      StepCounts(net, q, r, id in Last(run.steps).moved, Last(run.steps).kind);
      StepStraight(net, q, r, id in Last(run.steps).moved, Last(run.steps).kind);
    }
  }

  // ---- the order of the running list ---------------------------------------------

  /** Whom a step admitted: the head of the queue, behind which the preempted have lined up. */
  function Admitted(desk: Desk, moved: seq<nat>, after: Desk): seq<nat> {
    var queue := desk.waiting + moved;
    if |after.waiting| <= |queue| then queue[..|queue| - |after.waiting|] else []
  }

  /** Everyone a run admitted, in that order; those who ran when it began come first. */
  function Admissions(run: Run): seq<nat>
    requires |run.tables| == |run.desks| == |run.steps| + 1
    decreases |run.steps|
  {
    if run.steps == [] then run.desks[0].running
    else Admissions(Shorter(run)) + Admitted(Last(Shorter(run).desks), Last(run.steps).moved, Last(run.desks))
  }

  /** When `id` was last admitted. */
  function Latest(log: seq<nat>, id: nat): (k: nat)
    requires id in log
    ensures k < |log| && log[k] == id && forall j :: k < j < |log| ==> log[j] != id
  {
    if Last(log) == id then |log| - 1 else Latest(Init(log), id)
  }

  /** Every member of `ids` was admitted, and each after the one before it. */
  ghost predicate InOrder(log: seq<nat>, ids: seq<nat>) {
    && (forall id :: id in ids ==> id in log)
    && forall i, j :: 0 <= i < j < |ids| ==> ids[i] in log && ids[j] in log && Latest(log, ids[i]) < Latest(log, ids[j])
  }

  lemma {:induction false} StartInOrder(ids: seq<nat>)
    requires NoDup(ids)
    ensures InOrder(ids, ids)
  {
  }

  lemma LeftInOrder(log: seq<nat>, ids: seq<nat>, left: seq<nat>)
    requires InOrder(log, ids) && SameOrder(ids, left) && forall id :: id in left ==> id in ids
    ensures InOrder(log, left)
  {
    forall i, j | 0 <= i < j < |left|
      ensures left[i] in log && left[j] in log && Latest(log, left[i]) < Latest(log, left[j])
    {
      assert Before(ids, left[i], left[j]);
    }
  }

  /** Those who join now come after everyone who stayed. */
  lemma {:induction false} JoinInOrder(log: seq<nat>, left: seq<nat>, batch: seq<nat>)
    requires InOrder(log, left) && NoDup(batch) && forall id :: id in left ==> id !in batch
    ensures InOrder(log + batch, left + batch)
  {
    forall i, j | 0 <= i < j < |left + batch|
      ensures (left + batch)[i] in log + batch && (left + batch)[j] in log + batch
      ensures Latest(log + batch, (left + batch)[i]) < Latest(log + batch, (left + batch)[j])
    {
      LatestJoined(log, left, batch, i);
      LatestJoined(log, left, batch, j);
    }
  }

  lemma LatestJoined(log: seq<nat>, left: seq<nat>, batch: seq<nat>, i: nat)
    requires InOrder(log, left) && NoDup(batch) && (forall id :: id in left ==> id !in batch) && i < |left + batch|
    ensures (left + batch)[i] in log + batch
    ensures i < |left| ==> left[i] in log && Latest(log + batch, left[i]) == Latest(log, left[i])
    ensures i >= |left| ==> Latest(log + batch, (left + batch)[i]) == |log| + i - |left|
  {
    hide Latest, NoDup;
    if i < |left| {
      assert left[i] in left;
      LatestStays(log, batch, left[i]);
    } else {
      LatestNew(log, batch, i - |left|);
    }
  }

  lemma LatestStays(log: seq<nat>, batch: seq<nat>, id: nat)
    requires id in log && id !in batch
    ensures id in log + batch && Latest(log + batch, id) == Latest(log, id)
  {
    var all, k := log + batch, Latest(log, id);
    assert all[k] == id;
    forall j | k < j < |all| ensures all[j] != id {
      if j >= |log| { assert all[j] == batch[j - |log|]; }
    }
    LatestIs(all, id, k);
  }

  lemma LatestNew(log: seq<nat>, batch: seq<nat>, m: nat)
    requires NoDup(batch) && m < |batch|
    ensures batch[m] in log + batch && Latest(log + batch, batch[m]) == |log| + m
  {
    var all := log + batch;
    assert all[|log| + m] == batch[m];
    forall j | |log| + m < j < |all| ensures all[j] != batch[m] {
      assert all[j] == batch[j - |log|];
    }
    LatestIs(all, batch[m], |log| + m);
  }

  lemma LatestIs(log: seq<nat>, id: nat, k: nat)
    requires k < |log| && log[k] == id && forall j :: k < j < |log| ==> log[j] != id
    ensures id in log && Latest(log, id) == k
  {
  }

  lemma {:induction false} AdmittedIs(queue: seq<nat>, batch: seq<nat>, desk: Desk, moved: seq<nat>, after: Desk)
    requires queue == desk.waiting + moved && queue == batch + after.waiting
    ensures Admitted(desk, moved, after) == batch
  {
  }

  /** One step keeps the running list in the order of admission. */
  lemma StepInOrder(eos: Option<Token>, was: Table, now: Table, desk: Desk, moved: seq<nat>, after: Desk, log: seq<nat>)
    requires Scheduled(eos, was, now, desk, moved, after) && InOrder(log, desk.running)
    ensures InOrder(log + Admitted(desk, moved, after), after.running)
  {
    hide Evicted, Sifted, InOrder, SameOrder, Admitted, NoDup;
    var left, batch :| Evicted(was, desk.running, moved, left)
      && Joined(eos, now, left, desk.waiting + moved, batch, after.running, after.waiting);
    EvictedOrder(was, desk.running, moved, left);
    LeftInOrder(log, desk.running, left);
    AdmittedIs(desk.waiting + moved, batch, desk, moved, after);
    QueueOnce(desk.waiting, moved, batch, after.waiting);
    JoinInOrder(log, left, batch);
    SiftedLeft(eos, now, left + batch, after.running);
    LeftInOrder(log + batch, left + batch, after.running);
  }

  lemma QueueOnce(queue: seq<nat>, moved: seq<nat>, batch: seq<nat>, rest: seq<nat>)
    requires NoDup(queue) && NoDup(moved) && (forall id :: id in moved ==> id !in queue) && queue + moved == batch + rest
    ensures NoDup(batch) && forall id :: id in batch ==> id in queue || id in moved
  {
    NoDupConcat(queue, moved);
    forall i, j | 0 <= i < j < |batch| ensures batch[i] != batch[j] {
      assert (batch + rest)[i] == batch[i] && (batch + rest)[j] == batch[j];
      assert (queue + moved)[i] != (queue + moved)[j];
    }
    forall id | id in batch ensures id in queue || id in moved {
      assert id in batch + rest;
    }
  }

  /** Throughout a run the running list stands in the order in which its members were last
      admitted, whoever was preempted, finished or readmitted in between. */
  lemma {:induction false} RunningInOrder(net: Net, eos: Option<Token>, run: Run)
    requires RunOk(net, eos, run)
    ensures |run.tables| == |run.desks| == |run.steps| + 1 && InOrder(Admissions(run), Last(run.desks).running)
    decreases |run.steps|
  {
    hide StepOf, StrideOk, Scheduled, InOrder;
    if run.steps == [] {
      StartInOrder(run.desks[0].running);
    } else {
      var less := Shorter(run);
      RunShorter(net, eos, run);
      RunningInOrder(net, eos, less);
      StepInOrder(eos, Last(less.tables), Last(run.tables), Last(less.desks), Last(run.steps).moved, Last(run.desks),
                  Admissions(less));
    }
  }

  /** `a` is preempted before `b`: it has fewer outputs, or as many and was admitted earlier. */
  ghost predicate Sooner(seqs: Table, log: seq<nat>, a: nat, b: nat) {
    && a in seqs && b in seqs && a in log && b in log
    && (|seqs[a].outputs| < |seqs[b].outputs|
        || (|seqs[a].outputs| == |seqs[b].outputs| && Latest(log, a) < Latest(log, b)))
  }

  lemma FewestSooner(seqs: Table, log: seq<nat>, ids: seq<nat>, i: nat, id: nat)
    requires FirstFewest(seqs, ids, i) && InOrder(log, ids) && id in ids && id != ids[i]
    ensures Sooner(seqs, log, ids[i], id)
  {
    var j :| 0 <= j < |ids| && ids[j] == id;
    assert ids[i] in ids;
  }

  /** Those preempted are the soonest of the running list, in that order. */
  lemma {:induction false} EvictedSooner(seqs: Table, log: seq<nat>, ran: seq<nat>, moved: seq<nat>, left: seq<nat>, a: nat, id: nat)
    requires Evicted(seqs, ran, moved, left) && NoDup(ran) && InOrder(log, ran)
    requires a < |moved| && id in ran && id !in moved[..a + 1]
    ensures Sooner(seqs, log, moved[a], id)
  {
    hide FirstFewest, SameOrder, NoDup, Without, InOrder, Sooner;
    var mid: seq<nat>, i: nat :| Evicted(seqs, ran, Init(moved), mid) && EvictedNext(seqs, mid, i, Last(moved), left);
    if a == |moved| - 1 {
      EvictedOrder(seqs, ran, Init(moved), mid);
      LeftInOrder(log, ran, mid);
      assert moved[..a + 1] == Init(moved) + [moved[a]];
      FewestSooner(seqs, log, mid, i, id);
    } else {
      assert Init(moved)[..a + 1] == moved[..a + 1];
      EvictedSooner(seqs, log, ran, Init(moved), mid, a, id);
    }
  }

  /** In every step of a run a preempted sequence was, of those still running, one with the fewest
      outputs, and of these the one admitted first. */
  lemma VictimsInOrder(net: Net, eos: Option<Token>, run: Run, a: nat, id: nat)
    requires RunOk(net, eos, run) && run.steps != [] && a < |Last(run.steps).moved|
    requires id in Last(Shorter(run).desks).running && id !in Last(run.steps).moved[..a + 1]
    ensures Sooner(Last(Shorter(run).tables), Admissions(Shorter(run)), Last(run.steps).moved[a], id)
  {
    hide StepOf, StrideOk, InOrder, Evicted, Sooner, Joined, NoDup, FinishReason;
    RunShorter(net, eos, run);
    RunningInOrder(net, eos, Shorter(run));
    var was, now, desk, after := Last(Shorter(run).tables), Last(run.tables), Last(Shorter(run).desks), Last(run.desks);
    var moved := Last(run.steps).moved;
    var left, batch :| Evicted(was, desk.running, moved, left)
      && Joined(eos, now, left, desk.waiting + moved, batch, after.running, after.waiting);
    EvictedSooner(was, Admissions(Shorter(run)), desk.running, moved, left, a, id);
  }
}
