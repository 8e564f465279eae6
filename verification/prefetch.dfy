/**
 The prefetch pipeline as a step system: a feeder hands out one result slot per block and groups blocks into
 spans, workers fill the slots of their spans in any order, a consumer takes the slots in scan order. Both
 channels are bounded. An interleaving of the goroutines is a sequence of `Step`s; cancellation is left out.
 */
module Prefetch {
  import opened Types

  // ---------------------------------------------------------------- scan order

  /** The `i`th block number of a scan of [lo, hi], newest or oldest first. */
  function Number(lo: nat, hi: nat, desc: bool, i: nat): nat
    requires i <= hi - lo
  {
    if desc then hi - i else lo + i
  }

  /** Where block `n` comes in the scan. */
  function Position(lo: nat, hi: nat, desc: bool, n: nat): nat
    requires lo <= n <= hi
  {
    if desc then hi - n else n - lo
  }

  /** Every block of the range has exactly one position, and later positions are strictly further along. */
  lemma ScanOrder(lo: nat, hi: nat, desc: bool)
    requires lo <= hi
    ensures forall n :: lo <= n <= hi ==>
      Position(lo, hi, desc, n) <= hi - lo && Number(lo, hi, desc, Position(lo, hi, desc, n)) == n
    ensures forall i: nat, j: nat :: i < j <= hi - lo ==>
      Number(lo, hi, desc, i) != Number(lo, hi, desc, j) && (Number(lo, hi, desc, i) > Number(lo, hi, desc, j) <==> desc)
  {
  }

  // ---------------------------------------------------------------- the step system

  /** `total` slots to deliver, spans of up to `batch`, `workers` workers, `cap` slots of lookahead. */
  datatype Params = Params(total: nat, batch: nat, workers: nat, cap: nat)

  /** The source's buffer sizes for a scan of `total` blocks. */
  function Sized(total: nat, batchBlocks: nat, concurrency: nat): Params {
    var batch := if batchBlocks < 1 then 1 else batchBlocks;
    var workers := if concurrency < 1 then 1 else concurrency;
    Params(total, batch, workers, 2 * workers * batch)
  }

  /** At least one worker and one block per span; the consumer may lag two spans per worker behind the feeder. */
  lemma SizedMeans(total: nat, batchBlocks: nat, concurrency: nat)
    ensures var p := Sized(total, batchBlocks, concurrency);
            && p.total == total && p.batch >= 1 && p.workers >= 1 && p.cap == 2 * (p.workers * p.batch)
            && (batchBlocks >= 1 ==> p.batch == batchBlocks) && (concurrency >= 1 ==> p.workers == concurrency)
            && (batchBlocks == 0 ==> p.batch == 1) && (concurrency == 0 ==> p.workers == 1)
  {
    var batch := if batchBlocks < 1 then 1 else batchBlocks;
    var workers := if concurrency < 1 then 1 else concurrency;
    assert 2 * workers * batch == 2 * (workers * batch);
  }

  datatype Span = Span(lo: nat, hi: nat)

  datatype Worker = Idle | Busy(span: Span, done: set<nat>)

  /**
   Slots are named by their position in scan order. [0, started) went to workers, [started, flushed) waits in
   `jobs`, [flushed, fed) is the feeder's pending span. `fills` lists every send into a slot.
   */
  datatype State = State(
    fed: nat, flushed: nat, started: nat,
    jobs: seq<Span>,
    crew: seq<Worker>,
    fills: seq<nat>,
    ordered: seq<nat>, held: Option<nat>, delivered: seq<nat>)

  datatype Step = Emit | Flush | Start(w: nat) | Fill(w: nat, slot: nat) | Finish(w: nat) | Take | Receive

  function Initial(p: Params): State {
    State(0, 0, 0, [], seq(p.workers, _ => Idle), [], [], None, [])
  }

  predicate InSpan(w: Worker, slot: nat) {
    w.Busy? && w.span.lo <= slot < w.span.hi
  }

  predicate Enabled(p: Params, s: State, step: Step) {
    match step
    case Emit => s.fed < p.total && s.flushed <= s.fed && s.fed - s.flushed < p.batch && |s.ordered| < p.cap
    case Flush =>
      s.flushed < s.fed && (s.fed - s.flushed >= p.batch || s.fed == p.total) && |s.jobs| < p.workers
    case Start(w) => w < |s.crew| && s.crew[w].Idle? && s.jobs != []
    case Fill(w, slot) => w < |s.crew| && InSpan(s.crew[w], slot) && slot !in s.crew[w].done
    case Finish(w) =>
      w < |s.crew| && s.crew[w].Busy? && forall slot: nat :: s.crew[w].span.lo <= slot < s.crew[w].span.hi ==> slot in s.crew[w].done
    case Take => s.held.None? && s.ordered != []
    case Receive => s.held.Some? && s.held.value in s.fills
  }

  function After(s: State, step: Step): State {
    match step
    case Emit => s.(fed := s.fed + 1, ordered := s.ordered + [s.fed])
    case Flush => s.(flushed := s.fed, jobs := s.jobs + [Span(s.flushed, s.fed)])
    case Start(w) =>
      if w < |s.crew| && s.jobs != []
      then s.(started := s.jobs[0].hi, jobs := s.jobs[1..], crew := s.crew[w := Busy(s.jobs[0], {})]) else s
    case Fill(w, slot) =>
      if w < |s.crew| && s.crew[w].Busy?
      then s.(fills := s.fills + [slot], crew := s.crew[w := Busy(s.crew[w].span, s.crew[w].done + {slot})]) else s
    case Finish(w) => if w < |s.crew| then s.(crew := s.crew[w := Idle]) else s
    case Take => if s.ordered != [] then s.(held := Some(s.ordered[0]), ordered := s.ordered[1..]) else s
    case Receive => if s.held.Some? then s.(delivered := s.delivered + [s.held.value], held := None) else s
  }

  // ---------------------------------------------------------------- what every step keeps

  function Upto(n: nat): (r: seq<nat>)
    ensures |r| == n && forall i :: 0 <= i < n ==> r[i] == i
  {
    seq(n, i => i)
  }

  function Held(s: State): seq<nat> {
    if s.held.Some? then [s.held.value] else []
  }

  /** The consumer's side: what was delivered, held and buffered is every slot so far, in order. */
  ghost predicate InOrder(p: Params, s: State) {
    && s.delivered + Held(s) + s.ordered == Upto(s.fed)
    && |s.ordered| <= p.cap && s.fed <= p.total
    && forall i :: 0 <= i < |s.delivered| ==> s.delivered[i] in s.fills
  }

  /** The queued spans are consecutive and cover [started, flushed). */
  ghost predicate Queued(p: Params, s: State) {
    && s.started <= s.flushed <= s.fed <= s.flushed + p.batch
    && |s.jobs| <= p.workers
    && (forall k :: 0 <= k < |s.jobs| ==> s.jobs[k].lo < s.jobs[k].hi <= s.flushed)
    && (forall k :: 0 <= k < |s.jobs| - 1 ==> s.jobs[k].hi == s.jobs[k + 1].lo)
    && (s.jobs == [] ==> s.started == s.flushed)
    && (s.jobs != [] ==> s.jobs[0].lo == s.started && s.jobs[|s.jobs| - 1].hi == s.flushed)
  }

  ghost predicate Disjoint(a: Worker, b: Worker) {
    a.Busy? && b.Busy? ==> a.span.hi <= b.span.lo || b.span.hi <= a.span.lo
  }

  ghost predicate Working(s: State, w: Worker) {
    w.Busy? ==> (w.span.hi <= s.started && forall slot :: slot in w.done <==> InSpan(w, slot) && slot in s.fills)
  }

  /** Spans in work are disjoint, and each worker knows exactly which of its slots were filled. */
  ghost predicate Crewed(p: Params, s: State) {
    && |s.crew| == p.workers
    && (forall v, w :: 0 <= v < w < |s.crew| ==> Disjoint(s.crew[v], s.crew[w]))
    && (forall w :: 0 <= w < |s.crew| ==> Working(s, s.crew[w]))
  }

  ghost predicate Owned(s: State, slot: nat) {
    exists w :: 0 <= w < |s.crew| && InSpan(s.crew[w], slot)
  }

  /** No slot is filled twice, and one that was started is filled or still owned. */
  ghost predicate FilledOnce(s: State) {
    && (forall i, j :: 0 <= i < j < |s.fills| ==> s.fills[i] != s.fills[j])
    && (forall i :: 0 <= i < |s.fills| ==> s.fills[i] < s.started)
    && (forall slot: nat :: slot < s.started ==> slot in s.fills || Owned(s, slot))
  }

  ghost predicate Inv(p: Params, s: State) {
    InOrder(p, s) && Queued(p, s) && Crewed(p, s) && FilledOnce(s)
  }

  lemma InitialInv(p: Params)
    ensures Inv(p, Initial(p))
  {
  }

  lemma StepKeepsOrder(p: Params, s: State, step: Step)
    requires InOrder(p, s) && Enabled(p, s, step)
    ensures InOrder(p, After(s, step))
  {
    var s' := After(s, step);
    match step
    case Emit =>
      assert s'.delivered + Held(s') + s'.ordered == s.delivered + Held(s) + s.ordered + [s.fed];
    case Take =>
      assert s.ordered == [s.ordered[0]] + s.ordered[1..];
      assert s.delivered + [] == s.delivered;
    case Receive =>
      assert s'.delivered + [] == s'.delivered;
    case Fill(w, slot) =>
    case Flush =>
    case Start(w) =>
    case Finish(w) =>
  }

  lemma StepKeepsQueue(p: Params, s: State, step: Step)
    requires Queued(p, s) && Enabled(p, s, step)
    ensures Queued(p, After(s, step))
  {
  }

  lemma StepKeepsCrew(p: Params, s: State, step: Step)
    requires Queued(p, s) && Crewed(p, s) && FilledOnce(s) && Enabled(p, s, step)
    ensures Crewed(p, After(s, step))
  {
    var s' := After(s, step);
    match step
    case Start(w) =>
      forall v | 0 <= v < |s.crew| ensures Working(s', s'.crew[v]) {
        assert Working(s, s.crew[v]);
      }
      forall u, v | 0 <= u < v < |s.crew| ensures Disjoint(s'.crew[u], s'.crew[v]) {
        assert Disjoint(s.crew[u], s.crew[v]) && Working(s, s.crew[u]) && Working(s, s.crew[v]);
      }
    case Fill(w, slot) =>
      forall v | 0 <= v < |s.crew| ensures Working(s', s'.crew[v]) {
        assert Working(s, s.crew[v]);
        if v < w { assert Disjoint(s.crew[v], s.crew[w]); }
        if w < v { assert Disjoint(s.crew[w], s.crew[v]); }
      }
      forall u, v | 0 <= u < v < |s.crew| ensures Disjoint(s'.crew[u], s'.crew[v]) {
        assert Disjoint(s.crew[u], s.crew[v]);
      }
    case Finish(w) =>
      forall v | 0 <= v < |s.crew| ensures Working(s', s'.crew[v]) {
        assert Working(s, s.crew[v]);
      }
      forall u, v | 0 <= u < v < |s.crew| ensures Disjoint(s'.crew[u], s'.crew[v]) {
        assert Disjoint(s.crew[u], s.crew[v]);
      }
    case Emit => SameCrew(p, s, s');
    case Flush => SameCrew(p, s, s');
    case Take => SameCrew(p, s, s');
    case Receive => SameCrew(p, s, s');
  }

  lemma SameCrew(p: Params, s: State, s': State)
    requires Crewed(p, s) && s'.crew == s.crew && s'.fills == s.fills && s'.started == s.started
    ensures Crewed(p, s')
  {
    forall v | 0 <= v < |s.crew| ensures Working(s', s'.crew[v]) {
      assert Working(s, s.crew[v]);
    }
  }

  lemma StepKeepsFilledOnce(p: Params, s: State, step: Step)
    requires Queued(p, s) && Crewed(p, s) && FilledOnce(s) && Enabled(p, s, step)
    ensures FilledOnce(After(s, step))
  {
    var s' := After(s, step);
    if step.Fill? {
      assert Working(s, s.crew[step.w]);
      assert step.slot !in s.fills;
    }
    forall slot: nat | slot < s'.started ensures slot in s'.fills || Owned(s', slot) {
      if slot < s.started {
        if slot !in s.fills { StaysOwned(p, s, step, slot); }
      } else {
        assert step.Start? && InSpan(s'.crew[step.w], slot);
      }
    }
  }

  lemma StaysOwned(p: Params, s: State, step: Step, slot: nat)
    requires Crewed(p, s) && Enabled(p, s, step)
    requires Owned(s, slot) && slot !in s.fills
    ensures slot in After(s, step).fills || Owned(After(s, step), slot)
  {
    var w :| 0 <= w < |s.crew| && InSpan(s.crew[w], slot);
    assert Working(s, s.crew[w]);
    assert InSpan(After(s, step).crew[w], slot);
  }

  lemma StepKeepsInv(p: Params, s: State, step: Step)
    requires Inv(p, s) && Enabled(p, s, step)
    ensures Inv(p, After(s, step))
  {
    hide InOrder, Queued, Crewed, FilledOnce, Enabled, After;
    StepKeepsOrder(p, s, step);
    StepKeepsQueue(p, s, step);
    StepKeepsCrew(p, s, step);
    StepKeepsFilledOnce(p, s, step);
  }

  // ---------------------------------------------------------------- progress

  /** Everything delivered and every worker back at its queue. */
  ghost predicate Finished(p: Params, s: State) {
    s.delivered == Upto(p.total) && s.jobs == [] && forall w :: 0 <= w < |s.crew| ==> s.crew[w].Idle?
  }

  ghost predicate CanStep(p: Params, s: State) {
    exists step :: Enabled(p, s, step)
  }

  /** A busy worker always has something to do. */
  lemma BusyCanStep(p: Params, s: State, w: nat)
    requires w < |s.crew| && s.crew[w].Busy?
    ensures CanStep(p, s)
  {
    if slot: nat :| InSpan(s.crew[w], slot) && slot !in s.crew[w].done {
      assert Enabled(p, s, Fill(w, slot));
    } else {
      assert Enabled(p, s, Finish(w));
    }
  }

  lemma QueueCanStep(p: Params, s: State)
    requires Crewed(p, s) && p.workers >= 1 && s.jobs != []
    ensures CanStep(p, s)
  {
    if s.crew[0].Busy? {
      BusyCanStep(p, s, 0);
    } else {
      assert Enabled(p, s, Start(0));
    }
  }

  lemma FullSpanCanStep(p: Params, s: State)
    requires Queued(p, s) && Crewed(p, s) && p.workers >= 1
    requires s.flushed < s.fed && (s.fed - s.flushed >= p.batch || s.fed == p.total)
    ensures CanStep(p, s)
  {
    if |s.jobs| < p.workers {
      assert Enabled(p, s, Flush);
    } else {
      QueueCanStep(p, s);
    }
  }

  /** The consumer waits for a slot nobody filled yet: somebody can move. */
  lemma WaitingCanStep(p: Params, s: State)
    requires Inv(p, s) && p.workers >= 1 && p.batch >= 1 && p.cap + 1 >= p.batch
    requires s.held.Some? && s.held.value !in s.fills
    ensures CanStep(p, s)
  {
    var slot := s.held.value;
    assert slot == (s.delivered + Held(s) + s.ordered)[|s.delivered|] == |s.delivered|;
    if slot < s.started {
      var w :| 0 <= w < |s.crew| && InSpan(s.crew[w], slot);
      BusyCanStep(p, s, w);
    } else if slot < s.flushed {
      QueueCanStep(p, s);
    } else if s.fed - s.flushed >= p.batch || s.fed == p.total {
      FullSpanCanStep(p, s);
    } else {
      assert s.fed == |s.delivered| + 1 + |s.ordered|;
      assert Enabled(p, s, Emit);
    }
  }

  lemma IdleConsumerCanStep(p: Params, s: State)
    requires Inv(p, s) && p.workers >= 1 && p.batch >= 1 && p.cap >= 1
    requires s.held.None? && s.ordered == [] && !Finished(p, s)
    ensures CanStep(p, s)
  {
    assert s.delivered + Held(s) + s.ordered == s.delivered;
    if s.fed > 0 {
      assert s.delivered[s.fed - 1] in s.fills;
    }
    assert s.started == s.flushed == s.fed;
    if s.fed < p.total {
      assert Enabled(p, s, Emit);
    } else {
      assert s.jobs == [] && s.delivered == Upto(p.total);
      var w :| 0 <= w < |s.crew| && !s.crew[w].Idle?;
      BusyCanStep(p, s, w);
    }
  }

  /** No reachable unfinished state is stuck, as long as the slot buffer covers all of a span but one. */
  lemma NeverStuck(p: Params, s: State)
    requires Inv(p, s) && p.workers >= 1 && p.batch >= 1 && p.cap >= 1 && p.cap + 1 >= p.batch
    requires !Finished(p, s)
    ensures CanStep(p, s)
  {
    if s.held.Some? {
      if s.held.value in s.fills {
        assert Enabled(p, s, Receive);
      } else {
        WaitingCanStep(p, s);
      }
    } else if s.ordered != [] {
      assert Enabled(p, s, Take);
    } else {
      IdleConsumerCanStep(p, s);
    }
  }

  // ---------------------------------------------------------------- termination

  function BusyCount(crew: seq<Worker>): nat {
    if crew == [] then 0 else BusyCount(crew[..|crew| - 1]) + if crew[|crew| - 1].Busy? then 1 else 0
  }

  lemma {:induction false} BusyCountUpdate(crew: seq<Worker>, w: nat, worker: Worker)
    requires w < |crew|
    ensures BusyCount(crew[w := worker])
         == BusyCount(crew) - (if crew[w].Busy? then 1 else 0) + if worker.Busy? then 1 else 0
  {
    var init := crew[..|crew| - 1];
    if w == |crew| - 1 {
      assert crew[w := worker][..|crew| - 1] == init;
    } else {
      BusyCountUpdate(init, w, worker);
      assert crew[w := worker][..|crew| - 1] == init[w := worker];
    }
  }

  function Measure(p: Params, s: State): int {
    3 * (p.total - s.flushed) + (p.total - s.fed) + 2 * |s.jobs| + BusyCount(s.crew) + (p.total - |s.fills|)
    + (p.total - |s.delivered| - |Held(s)|) + (p.total - |s.delivered|)
  }

  lemma StepShrinks(p: Params, s: State, step: Step)
    requires Enabled(p, s, step)
    ensures Measure(p, After(s, step)) < Measure(p, s)
  {
    match step
    case Start(w) => BusyCountUpdate(s.crew, w, Busy(s.jobs[0], {}));
    case Fill(w, slot) => BusyCountUpdate(s.crew, w, Busy(s.crew[w].span, s.crew[w].done + {slot}));
    case Finish(w) => BusyCountUpdate(s.crew, w, Idle);
    case Emit =>
    case Flush =>
    case Take =>
    case Receive =>
  }

  lemma {:induction false} FewFills(fills: seq<nat>, n: nat)
    requires forall i, j :: 0 <= i < j < |fills| ==> fills[i] != fills[j]
    requires forall i :: 0 <= i < |fills| ==> fills[i] < n
    ensures |fills| <= n
    decreases n
  {
    if fills == [] {
      return;
    }
    assert fills[0] < n;
    if n - 1 in fills {
      var k :| 0 <= k < |fills| && fills[k] == n - 1;
      FewFills(fills[..k] + fills[k + 1..], n - 1);
    } else {
      FewFills(fills, n - 1);
    }
  }

  lemma MeasureNonNegative(p: Params, s: State)
    requires Inv(p, s)
    ensures Measure(p, s) >= 0
  {
    FewFills(s.fills, s.started);
    assert |s.delivered + Held(s) + s.ordered| == s.fed;
  }

  // ---------------------------------------------------------------- runs

  ghost function Play(p: Params, steps: seq<Step>): State {
    if steps == [] then Initial(p) else After(Play(p, steps[..|steps| - 1]), steps[|steps| - 1])
  }

  /** An interleaving: every step was enabled when it was taken. */
  ghost predicate Legal(p: Params, steps: seq<Step>) {
    steps == [] || (Legal(p, steps[..|steps| - 1]) && Enabled(p, Play(p, steps[..|steps| - 1]), steps[|steps| - 1]))
  }

  lemma {:induction false} RunsKeepInv(p: Params, steps: seq<Step>)
    requires Legal(p, steps)
    ensures Inv(p, Play(p, steps))
    ensures |steps| + Measure(p, Play(p, steps)) <= 7 * p.total
  {
    hide Inv, Enabled, After;
    if steps == [] {
      InitialInv(p);
      NobodyBusy(p.workers);
    } else {
      var init, last := steps[..|steps| - 1], steps[|steps| - 1];
      RunsKeepInv(p, init);
      StepKeepsInv(p, Play(p, init), last);
      StepShrinks(p, Play(p, init), last);
    }
  }

  lemma {:induction false} NobodyBusy(n: nat)
    ensures BusyCount(seq(n, _ => Idle)) == 0
  {
    if n == 0 {
    } else {
      assert seq(n, _ => Idle)[..n - 1] == seq(n - 1, _ => Idle);
      NobodyBusy(n - 1);
    }
  }

  /**
   Every interleaving: the consumer has each block so far exactly once in scan order, no slot was filled
   twice, the lookahead is bounded, and at most seven steps are spent per block.
   */
  lemma EveryRun(p: Params, steps: seq<Step>)
    requires Legal(p, steps)
    ensures var s := Play(p, steps);
            && s.delivered == Upto(|s.delivered|) && |s.delivered| <= p.total
            && (forall i, j :: 0 <= i < j < |s.fills| ==> s.fills[i] != s.fills[j])
            && |s.ordered| <= p.cap && s.fed <= |s.delivered| + 1 + p.cap
            && |steps| <= 7 * p.total
  {
    RunsKeepInv(p, steps);
    var s := Play(p, steps);
    MeasureNonNegative(p, s);
    assert |s.delivered + Held(s) + s.ordered| == s.fed;
    forall i | 0 <= i < |s.delivered| ensures s.delivered[i] == i {
      assert s.delivered[i] == (s.delivered + Held(s) + s.ordered)[i];
    }
  }

  /** A run that cannot go on has delivered every block, filled every slot exactly once, and left nobody busy. */
  lemma RunsFinish(p: Params, steps: seq<Step>)
    requires p.workers >= 1 && p.batch >= 1 && p.cap >= 1 && p.cap + 1 >= p.batch
    requires Legal(p, steps) && !CanStep(p, Play(p, steps))
    ensures var s := Play(p, steps);
            && Finished(p, s)
            && |s.fills| == p.total && (forall slot: nat :: slot < p.total ==> slot in s.fills)
            && (forall i, j :: 0 <= i < j < |s.fills| ==> s.fills[i] != s.fills[j])
  {
    RunsKeepInv(p, steps);
    var s := Play(p, steps);
    if !Finished(p, s) { NeverStuck(p, s); }
    forall slot: nat | slot < p.total ensures slot in s.fills {
      assert s.delivered[slot] == slot;
    }
    FewFills(s.fills, p.total) by {
      assert s.started <= p.total;
    }
    AtLeast(s.fills, p.total);
  }

  lemma {:induction false} AtLeast(fills: seq<nat>, n: nat)
    requires forall slot: nat :: slot < n ==> slot in fills
    ensures |fills| >= n
    decreases n
  {
    if n == 0 {
    } else {
      var last: nat := n - 1;
      assert last in fills;
      var k :| 0 <= k < |fills| && fills[k] == last;
      var rest := fills[..k] + fills[k + 1..];
      forall slot: nat | slot < last ensures slot in rest {
        assert slot in fills;
        var j :| 0 <= j < |fills| && fills[j] == slot;
        assert if j < k then rest[j] == slot else rest[j - 1] == slot;
      }
      AtLeast(rest, last);
    }
  }

  /** The source's buffer sizes always suffice. */
  lemma SizedSuffices(total: nat, batchBlocks: nat, concurrency: nat)
    ensures var p := Sized(total, batchBlocks, concurrency);
            p.total == total && p.workers >= 1 && p.batch >= 1 && p.cap >= 1 && p.cap + 1 >= p.batch
  {
    var p := Sized(total, batchBlocks, concurrency);
    AtLeastOne(p.workers, p.batch);
  }

  lemma AtLeastOne(a: nat, b: nat)
    requires a >= 1
    ensures 2 * a * b >= 2 * b
  {
    assert 2 * a * b == 2 * b + 2 * (a - 1) * b;
  }

  // ---------------------------------------------------------------- why the slot buffer must cover a span

  /** The feeder fills the buffer with an unfinished span while the consumer waits for its first slot. */
  ghost function Wedge(p: Params, n: nat): seq<Step> {
    if n == 0 then [Emit, Take] else Wedge(p, n - 1) + [Emit]
  }

  lemma {:induction false} Wedges(p: Params, n: nat)
    requires p.cap >= 1 && p.cap + 1 < p.batch && p.cap + 1 < p.total && n <= p.cap
    ensures Legal(p, Wedge(p, n))
    ensures var s := Play(p, Wedge(p, n));
            && s.fed == n + 1 && s.flushed == 0 && s.started == 0 && s.jobs == [] && s.crew == Initial(p).crew
            && s.fills == [] && s.held == Some(0) && |s.ordered| == n
  {
    var steps := Wedge(p, n);
    if n == 0 {
      var first := [Emit];
      assert steps[..1] == first && first[..0] == [];
      assert Play(p, first) == After(Initial(p), Emit);
      assert Enabled(p, Initial(p), Emit) && Legal(p, first[..0]) && Play(p, first[..0]) == Initial(p);
      assert Legal(p, first);
      assert Enabled(p, Play(p, first), Take);
    } else {
      Wedges(p, n - 1);
      assert steps[..|steps| - 1] == Wedge(p, n - 1);
    }
  }

  /** A smaller buffer deadlocks the pipeline on a long enough scan. */
  lemma SmallBufferSticks(p: Params)
    requires p.cap >= 1 && p.cap + 1 < p.batch && p.cap + 1 < p.total
    ensures Legal(p, Wedge(p, p.cap)) && !CanStep(p, Play(p, Wedge(p, p.cap))) && !Finished(p, Play(p, Wedge(p, p.cap)))
  {
    Wedges(p, p.cap);
    var s := Play(p, Wedge(p, p.cap));
    forall step | Enabled(p, s, step) ensures false {
    }
    RunsKeepInv(p, Wedge(p, p.cap));
    assert |s.delivered + Held(s) + s.ordered| == s.fed;
  }

  /** Whatever the scan's length, a run that cannot go on is one that finished. */
  ghost predicate DeadlockFree(batch: nat, workers: nat, cap: nat) {
    forall total: nat, steps ::
      var p := Params(total, batch, workers, cap);
      Legal(p, steps) && !CanStep(p, Play(p, steps)) ==> Finished(p, Play(p, steps))
  }

  /** The slot buffer the pipeline needs, exactly: one less than a span. */
  lemma DeadlockFreeExactly(batch: nat, workers: nat, cap: nat)
    requires batch >= 1 && workers >= 1 && cap >= 1
    ensures DeadlockFree(batch, workers, cap) <==> cap + 1 >= batch
  {
    hide Legal, CanStep, Finished, Play;
    if cap + 1 >= batch {
      forall total: nat, steps | var p := Params(total, batch, workers, cap); Legal(p, steps) && !CanStep(p, Play(p, steps))
        ensures var p := Params(total, batch, workers, cap); Finished(p, Play(p, steps))
      {
        RunsFinish(Params(total, batch, workers, cap), steps);
      }
    } else {
      SmallBufferSticks(Params(cap + 2, batch, workers, cap));
    }
  }

  // ---------------------------------------------------------------- one span

  /** A fetched block, or the error fetching it. */
  datatype FetchResult = Fetched(number: nat) | Missed(number: nat)

  /** A send into a slot, which holds one result and would block if it held one already. */
  method Send(slots: array<Option<FetchResult>>, i: nat, r: FetchResult)
    requires i < slots.Length && slots[i].None?
    modifies slots
    ensures slots[..] == old(slots[..])[i := Some(r)]
  {
    slots[i] := Some(r);
  }

  /** Every empty slot of a span gets exactly one result, the one for its own block number. */
  method FetchSpan(numbers: seq<nat>, slots: array<Option<FetchResult>>)
    requires slots.Length == |numbers| && forall i :: 0 <= i < slots.Length ==> slots[i].None?
    modifies slots
    ensures forall i :: 0 <= i < slots.Length ==> slots[i].Some? && slots[i].value.number == numbers[i]
  {
    var fetched: seq<bool> := seq(|numbers|, _ => false);
    if |numbers| > 1 {
      var batchServed: bool := *;
      if !batchServed {
        for i := 0 to |numbers|
          invariant forall k :: 0 <= k < i ==> slots[k] == Some(Missed(numbers[k]))
          invariant forall k :: i <= k < slots.Length ==> slots[k].None?
        {
          Send(slots, i, Missed(numbers[i]));
        }
        return;
      }
      for i := 0 to |numbers|
        invariant |fetched| == |numbers|
        invariant forall k :: 0 <= k < |numbers| ==> (fetched[k] <==> slots[k].Some?)
        invariant forall k :: 0 <= k < |numbers| && fetched[k] ==> k < i && slots[k].value.number == numbers[k]
      {
        var served: bool := *;
        if !served { continue; }
        Send(slots, i, Fetched(numbers[i]));
        fetched := fetched[i := true];
      }
    }
    for i := 0 to |numbers|
      invariant forall k :: 0 <= k < |numbers| && (k < i || fetched[k]) ==> slots[k].Some? && slots[k].value.number == numbers[k]
      invariant forall k :: i <= k < |numbers| && !fetched[k] ==> slots[k].None?
    {
      if fetched[i] { continue; }
      var ok: bool := *;
      Send(slots, i, if ok then Fetched(numbers[i]) else Missed(numbers[i]));
    }
  }
}
