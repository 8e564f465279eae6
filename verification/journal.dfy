/**
 The journal of a dispatch loop: every tracker input and every processed block, in order. Replaying it gives
 the tracker's state and the whole event stream, so the theorems about runs of inputs are theorems about the
 loop.
 */
module Journal {
  import opened Types
  import Tombstones
  import opened Lifecycle
  import opened Invariant
  import opened Effects
  import opened Blocks
  import opened Safety
  import opened Tracking
  import Grammar

  /**
   `fin` is the finalized number known when a single input was taken; a block carries it in its moment.
   `Landed` is the tip moving to the buffered header of a number, at the end of a reorg.
   */
  datatype Act = Processed(b: Block, m: Moment) | Took(i: Input, fin: nat) | Landed(number: nat, fin: nat)

  function FinOf(a: Act): nat {
    if a.Processed? then a.m.finalized else a.fin
  }

  /** What the loop has become: its tracked state, what it emitted, and which act emitted each event. */
  datatype Chronicle = Chronicle(s: State, evs: seq<Event>, emitters: seq<nat>)

  ghost function Perform(cfg: Config, s: State, a: Act): (State, seq<Event>) {
    match a
    case Processed(b, m) => Process(cfg, s, b, m)
    case Took(i, _) => Step(cfg, s, i)
    case Landed(_, _) => (s, [])
  }

  ghost function Run(cfg: Config, origin: State, acts: seq<Act>): Chronicle {
    if acts == [] then Chronicle(origin, [], [])
    else
      var c, a := Run(cfg, origin, acts[..|acts| - 1]), acts[|acts| - 1];
      var (s, evs) := Perform(cfg, c.s, a);
      Chronicle(s, c.evs + evs, c.emitters + seq(|evs|, _ => |acts| - 1))
  }

  /** What the loop guarantees of each act: well-formed legs, and a threshold checked before confirming. */
  ghost predicate ActOk(cfg: Config, s: State, a: Act) {
    match a
    case Processed(b, _) => WellScanned(b)
    case Took(i, fin) =>
      && WellFormed(s, i)
      && (i.FoundMined? ==> i.finalized == fin)
      && (i.Verified? ==> Candidate(cfg, s, i.hash, i.headNumber, fin))
    case Landed(_, _) => true
  }

  ghost predicate Lawful(cfg: Config, origin: State, acts: seq<Act>) {
    forall k :: 0 <= k < |acts| ==> ActOk(cfg, Run(cfg, origin, acts[..k]).s, acts[k])
  }

  lemma LawfulSnoc(cfg: Config, origin: State, acts: seq<Act>, a: Act)
    requires Lawful(cfg, origin, acts) && ActOk(cfg, Run(cfg, origin, acts).s, a)
    ensures Lawful(cfg, origin, acts + [a])
  {
    hide ActOk, Run;
    forall k | 0 <= k < |acts + [a]| ensures ActOk(cfg, Run(cfg, origin, (acts + [a])[..k]).s, (acts + [a])[k]) {
      if k < |acts| {
        assert (acts + [a])[..k] == acts[..k];
      } else {
        assert (acts + [a])[..k] == acts;
      }
    }
  }

  lemma RunSnoc(cfg: Config, origin: State, acts: seq<Act>, a: Act)
    ensures var c, r := Run(cfg, origin, acts), Perform(cfg, Run(cfg, origin, acts).s, a);
            Run(cfg, origin, acts + [a]) == Chronicle(r.0, c.evs + r.1, c.emitters + seq(|r.1|, _ => |acts|))
  {
    assert (acts + [a])[..|acts|] == acts;
  }

  lemma LawfulPrefix(cfg: Config, origin: State, acts: seq<Act>, n: nat)
    requires Lawful(cfg, origin, acts) && n <= |acts|
    ensures Lawful(cfg, origin, acts[..n])
  {
    hide ActOk, Run;
    forall k | 0 <= k < n ensures ActOk(cfg, Run(cfg, origin, acts[..n][..k]).s, acts[..n][k]) {
      assert acts[..n][..k] == acts[..k];
    }
  }

  lemma PerformKeepsInv(cfg: Config, s: State, a: Act)
    requires Inv(s) && ActOk(cfg, s, a)
    ensures Inv(Perform(cfg, s, a).0)
  {
    hide Inv, Process, Step, WellFormed, WellScanned;
    match a
    case Processed(b, m) => ProcessKeeps(cfg, s, b, m);
    case Took(i, _) => StepKeepsInv(cfg, s, i);
    case Landed(_, _) =>
  }

  /** The tracker invariant holds after every journal that starts from it. */
  lemma {:induction false} RunKeepsInv(cfg: Config, origin: State, acts: seq<Act>)
    requires Inv(origin) && Lawful(cfg, origin, acts)
    ensures Inv(Run(cfg, origin, acts).s)
  {
    hide Inv, ActOk, Perform;
    if acts == [] {
    } else {
      LawfulPrefix(cfg, origin, acts, |acts| - 1);
      RunKeepsInv(cfg, origin, acts[..|acts| - 1]);
      PerformKeepsInv(cfg, Run(cfg, origin, acts[..|acts| - 1]).s, acts[|acts| - 1]);
    }
  }

  // ---------------------------------------------------------------- confirmation safety

  /** The depth an act gives a block: of the processed block, of a receipt's, or below the head of a verification. */
  function DepthGiven(a: Act, blockNum: nat): nat {
    match a
    case Processed(_, m) => Counted(m.confirmations)
    case Took(i, _) =>
      if i.FoundMined? then Counted(i.confirmations)
      else if i.Verified? && blockNum <= i.headNumber then i.headNumber - blockNum + 1
      else 0
    case Landed(_, _) => 0
  }

  /** The event was safe at the depth and the finalized number of the act. */
  ghost predicate SafeBy(cfg: Config, a: Act, e: Event) {
    SafeEvent(cfg, e, DepthGiven(a, e.blockNumber), FinOf(a))
  }

  lemma StepSafe(cfg: Config, s: State, i: Input, fin: nat)
    requires Inv(s) && ActOk(cfg, s, Took(i, fin))
    ensures forall e :: e in Step(cfg, s, i).1 ==> SafeBy(cfg, Took(i, fin), e)
  {
    hide ReplaceAll, OnReorg, OnMined, Tombstones.Bury, Inv, Lifecycle.Confirm;
    match i
    case FoundMined(hash, block, num, transfers, failed, conf, f, now) =>
      OnMinedSafe(cfg, s, hash, block, num, transfers, failed, conf, f, now);
    case Verified(hash, head) => ConfirmSafe(cfg, s, hash, head, fin);
    case NonceUsed(sender, nonce, winner) =>
      ReplaceAllConfirmsNothing(s, Occupants(s.byNonce, NonceKey(sender, nonce)), winner);
    case ForkedAt(ancestor, order, now) => OnReorgConfirmsNothing(s, ancestor, order, now);
    case SeenPending(_, _) =>
    case Rechecked(_, _, _) =>
    case Demoted(_, _) =>
  }

  lemma ConfirmSafe(cfg: Config, s: State, hash: Hash, headNumber: nat, finalized: nat)
    requires Candidate(cfg, s, hash, headNumber, finalized)
    ensures forall e :: e in Lifecycle.Confirm(s, hash, headNumber).1 ==> SafeBy(cfg, Took(Verified(hash, headNumber), finalized), e)
  {
    hide Settle;
  }

  lemma PerformSafe(cfg: Config, s: State, a: Act)
    requires Inv(s) && ActOk(cfg, s, a)
    ensures forall e :: e in Perform(cfg, s, a).1 ==> SafeBy(cfg, a, e)
  {
    hide Inv, Process, Step, SafeEvent, WellScanned, Counted;
    match a
    case Processed(b, m) => ProcessSafe(cfg, s, b, m);
    case Took(i, fin) => StepSafe(cfg, s, i, fin);
    case Landed(_, _) =>
  }

  /** Event `j` of the journal: the act that emitted it, and that it was safe at that act's depth and finalized number. */
  ghost predicate SafeAt(cfg: Config, origin: State, acts: seq<Act>, j: nat)
    requires j < |Run(cfg, origin, acts).evs|
  {
    var c := Run(cfg, origin, acts);
    j < |c.emitters| && c.emitters[j] < |acts| && EmittedBy(cfg, origin, acts, c.emitters[j], c.evs[j]) && SafeBy(cfg, acts[c.emitters[j]], c.evs[j])
  }

  lemma {:induction false} OneEmitter(cfg: Config, origin: State, acts: seq<Act>)
    ensures |Run(cfg, origin, acts).emitters| == |Run(cfg, origin, acts).evs|
  {
    hide Perform;
    if acts != [] { OneEmitter(cfg, origin, acts[..|acts| - 1]); }
  }

  /** Every event of a journal met the configured threshold at the depth and the finalized number of its own act. */
  lemma {:induction false} RunSafe(cfg: Config, origin: State, acts: seq<Act>, j: nat)
    requires Inv(origin) && Lawful(cfg, origin, acts) && j < |Run(cfg, origin, acts).evs|
    ensures SafeAt(cfg, origin, acts, j)
  {
    hide Inv, ActOk, Perform, SafeBy;
    var n := |acts| - 1;
    var init := acts[..n];
    OneEmitter(cfg, origin, init);
    LawfulPrefix(cfg, origin, acts, n);
    if j < |Run(cfg, origin, init).evs| {
      RunSafe(cfg, origin, init, j);
      assert init[..Run(cfg, origin, init).emitters[j]] == acts[..Run(cfg, origin, init).emitters[j]];
    } else {
      RunKeepsInv(cfg, origin, init);
      PerformSafe(cfg, Run(cfg, origin, init).s, acts[n]);
    }
  }

  /** A confirmed event of a single input, told by what the input was. */
  lemma StepConfirms(cfg: Config, s: State, i: Input, e: Event)
    requires Inv(s) && WellFormed(s, i) && e in Step(cfg, s, i).1 && e.typ == Confirmed
    ensures (i.Verified? && e.TxHash() == i.hash && IsMined(s, i.hash) && e.blockHash == s.txs[i.hash].block
             && e.blockNumber == s.txs[i.hash].blockNum <= i.headNumber && e.confirmations == i.headNumber - e.blockNumber + 1)
         || (i.FoundMined? && !i.failed && e.TxHash() == i.hash && e.blockHash == i.block && e.blockNumber == i.blockNum)
  {
    hide Tombstones.Bury, Tombstones.Clear, Unindex, Index, ReplaceAll, OnReorg, NonceExact, Tombstones.Valid, Graves;
    match i
    case NonceUsed(sender, nonce, winner) =>
      ReplaceAllConfirmsNothing(s, Occupants(s.byNonce, NonceKey(sender, nonce)), winner);
    case ForkedAt(ancestor, order, now) => OnReorgConfirmsNothing(s, ancestor, order, now);
    case FoundMined(hash, _, _, transfers, _, _, _, _) =>
      assert hash in s.txs ==> TxOk(hash, s.txs[hash]);
    case Verified(hash, _) =>
      assert hash in s.txs ==> TxOk(hash, s.txs[hash]);
    case SeenPending(_, _) =>
    case Rechecked(_, _, _) =>
    case Demoted(_, _) =>
  }

  // ---------------------------------------------------------------- where an event comes from

  /** Act `k` of the journal emitted `e`. */
  ghost predicate EmittedBy(cfg: Config, origin: State, acts: seq<Act>, k: nat, e: Event)
    requires k < |acts|
  {
    e in Perform(cfg, Run(cfg, origin, acts[..k]).s, acts[k]).1
  }

  /** Every event past the first `n` acts was emitted by a later act. */
  lemma {:induction false} EmittedLater(cfg: Config, origin: State, acts: seq<Act>, n: nat, j: nat) returns (k: nat)
    requires n <= |acts|
    requires |Run(cfg, origin, acts[..n]).evs| <= j < |Run(cfg, origin, acts).evs|
    ensures n <= k < |acts| && EmittedBy(cfg, origin, acts, k, Run(cfg, origin, acts).evs[j])
  {
    hide Perform;
    assert acts[..|acts|] == acts;
    var init := acts[..|acts| - 1];
    var c := Run(cfg, origin, init);
    assert init[..n] == acts[..n];
    if j < |c.evs| {
      k := EmittedLater(cfg, origin, init, n, j);
      assert init[..k] == acts[..k];
    } else {
      k := |acts| - 1;
    }
  }

  /** The stream only grows with the journal. */
  lemma {:induction false} RunGrows(cfg: Config, origin: State, acts: seq<Act>, n: nat)
    requires n <= |acts|
    ensures Run(cfg, origin, acts[..n]).evs <= Run(cfg, origin, acts).evs
  {
    hide Perform;
    if n == |acts| {
      assert acts[..n] == acts;
    } else {
      assert acts[..|acts| - 1][..n] == acts[..n];
      RunGrows(cfg, origin, acts[..|acts| - 1], n);
    }
  }

  // ---------------------------------------------------------------- a journal is a run of inputs

  function MinedInput(b: Block, tx: MinedTx, m: Moment): Input {
    FoundMined(tx.hash, b.hash, b.number, tx.transfers, tx.failed, m.confirmations, m.finalized, m.now)
  }

  function MinedInputs(b: Block, n: nat, m: Moment): seq<Input>
    requires n <= |b.mined|
  {
    if n == 0 then [] else MinedInputs(b, n - 1, m) + [MinedInput(b, b.mined[n - 1], m)]
  }

  function ResolvedInput(s: State, b: Block, h: Hash, m: Moment): seq<Input> {
    if Scanned(b, h) || h !in s.txs || s.txs[h].state.InBlock? || h !in b.receipts then []
    else [FoundMined(h, b.hash, b.number, [], b.receipts[h], m.confirmations, m.finalized, m.now)]
  }

  function ResolvedInputs(cfg: Config, s: State, b: Block, n: nat, m: Moment): seq<Input>
    requires n <= |b.txs|
  {
    if n == 0 then []
    else ResolvedInputs(cfg, s, b, n - 1, m) + ResolvedInput(AfterResolved(cfg, s, b, n - 1, m).0, b, b.txs[n - 1].hash, m)
  }

  function ConsumedInputs(b: Block, n: nat): seq<Input>
    requires n <= |b.txs|
  {
    if n == 0 then [] else ConsumedInputs(b, n - 1) + [NonceUsed(b.txs[n - 1].sender, b.txs[n - 1].nonce, b.txs[n - 1].hash)]
  }

  /** The tracker inputs a journalled act stands for. */
  ghost function InputsOf(cfg: Config, s: State, a: Act): seq<Input> {
    match a
    case Took(i, _) => [i]
    case Landed(_, _) => []
    case Processed(b, m) =>
      var s1 := AfterMined(cfg, s, b, |b.mined|, m).0;
      MinedInputs(b, |b.mined|, m) + ResolvedInputs(cfg, s1, b, |b.txs|, m) + ConsumedInputs(b, |b.txs|)
  }

  ghost function AllInputs(cfg: Config, origin: State, acts: seq<Act>): seq<Input> {
    if acts == [] then []
    else
      var init := acts[..|acts| - 1];
      AllInputs(cfg, origin, init) + InputsOf(cfg, Run(cfg, origin, init).s, acts[|acts| - 1])
  }

  /** The inputs one after the other, from any state. */
  ghost function Feed(cfg: Config, s: State, inputs: seq<Input>): (State, seq<Event>) {
    if inputs == [] then (s, [])
    else
      var (s1, evs1) := Feed(cfg, s, inputs[..|inputs| - 1]);
      var (s2, evs2) := Step(cfg, s1, inputs[|inputs| - 1]);
      (s2, evs1 + evs2)
  }

  ghost predicate Feedable(cfg: Config, s: State, inputs: seq<Input>) {
    forall k :: 0 <= k < |inputs| ==> WellFormed(Feed(cfg, s, inputs[..k]).0, inputs[k])
  }

  lemma {:induction false} FeedConcat(cfg: Config, s: State, a: seq<Input>, b: seq<Input>)
    ensures var (s1, evs1) := Feed(cfg, s, a);
            var (s2, evs2) := Feed(cfg, s1, b);
            Feed(cfg, s, a + b) == (s2, evs1 + evs2)
  {
    hide Step;
    if b == [] {
      assert a + b == a && Feed(cfg, s, a).1 + [] == Feed(cfg, s, a).1;
    } else {
      var init, last := b[..|b| - 1], b[|b| - 1];
      assert (a + b)[..|a + b| - 1] == a + init && (a + b)[|a + b| - 1] == last;
      FeedConcat(cfg, s, a, init);
      var (s1, evs1) := Feed(cfg, s, a);
      var (s2, evs2) := Feed(cfg, s1, init);
      assert evs1 + (evs2 + Step(cfg, s2, last).1) == evs1 + evs2 + Step(cfg, s2, last).1;
    }
  }

  lemma FeedableConcat(cfg: Config, s: State, a: seq<Input>, b: seq<Input>)
    requires Feedable(cfg, s, a) && Feedable(cfg, Feed(cfg, s, a).0, b)
    ensures Feedable(cfg, s, a + b)
  {
    hide Feed, WellFormed;
    forall k | 0 <= k < |a + b| ensures WellFormed(Feed(cfg, s, (a + b)[..k]).0, (a + b)[k]) {
      if k < |a| {
        assert (a + b)[..k] == a[..k];
      } else {
        assert (a + b)[..k] == a + b[..k - |a|];
        FeedConcat(cfg, s, a, b[..k - |a|]);
      }
    }
  }

  lemma FeedOne(cfg: Config, s: State, i: Input)
    ensures Feed(cfg, s, [i]) == Step(cfg, s, i)
    ensures WellFormed(s, i) ==> Feedable(cfg, s, [i])
  {
    hide Step, WellFormed;
    assert [i][..0] == [];
    assert Feed(cfg, s, []) == (s, []);
    assert [] + Step(cfg, s, i).1 == Step(cfg, s, i).1;
  }

  lemma {:induction false} MinedFeeds(cfg: Config, s: State, b: Block, n: nat, m: Moment)
    requires n <= |b.mined| && WellScanned(b)
    ensures Feed(cfg, s, MinedInputs(b, n, m)) == AfterMined(cfg, s, b, n, m)
    ensures Feedable(cfg, s, MinedInputs(b, n, m))
  {
    hide Feed, Feedable, OnMined;
    if n == 0 {
      FeedNothing(cfg, s);
    } else {
      MinedFeeds(cfg, s, b, n - 1, m);
      var s1 := AfterMined(cfg, s, b, n - 1, m).0;
      FeedOne(cfg, s1, MinedInput(b, b.mined[n - 1], m));
      FeedConcat(cfg, s, MinedInputs(b, n - 1, m), [MinedInput(b, b.mined[n - 1], m)]);
      FeedableConcat(cfg, s, MinedInputs(b, n - 1, m), [MinedInput(b, b.mined[n - 1], m)]);
    }
  }

  lemma FeedNothing(cfg: Config, s: State)
    ensures Feed(cfg, s, []) == (s, []) && Feedable(cfg, s, [])
  {
  }

  lemma ResolvedFeeds(cfg: Config, s: State, b: Block, h: Hash, m: Moment)
    ensures Feed(cfg, s, ResolvedInput(s, b, h, m)) == ResolveOne(cfg, s, b, h, m)
    ensures Feedable(cfg, s, ResolvedInput(s, b, h, m))
  {
    hide Feed, Feedable, OnMined, Scanned;
    FeedNothing(cfg, s);
    if h in b.receipts {
      FeedOne(cfg, s, FoundMined(h, b.hash, b.number, [], b.receipts[h], m.confirmations, m.finalized, m.now));
    }
  }

  lemma {:induction false} AllResolvedFeed(cfg: Config, s: State, b: Block, n: nat, m: Moment)
    requires n <= |b.txs|
    ensures Feed(cfg, s, ResolvedInputs(cfg, s, b, n, m)) == AfterResolved(cfg, s, b, n, m)
    ensures Feedable(cfg, s, ResolvedInputs(cfg, s, b, n, m))
  {
    hide Feed, Feedable, ResolveOne, ResolvedInput;
    if n == 0 {
      FeedNothing(cfg, s);
    } else {
      AllResolvedFeed(cfg, s, b, n - 1, m);
      var s1, h := AfterResolved(cfg, s, b, n - 1, m).0, b.txs[n - 1].hash;
      ResolvedFeeds(cfg, s1, b, h, m);
      FeedConcat(cfg, s, ResolvedInputs(cfg, s, b, n - 1, m), ResolvedInput(s1, b, h, m));
      FeedableConcat(cfg, s, ResolvedInputs(cfg, s, b, n - 1, m), ResolvedInput(s1, b, h, m));
    }
  }

  lemma {:induction false} ConsumedFeeds(cfg: Config, s: State, b: Block, n: nat)
    requires n <= |b.txs|
    ensures Feed(cfg, s, ConsumedInputs(b, n)) == AfterConsumed(s, b, n)
    ensures Feedable(cfg, s, ConsumedInputs(b, n))
  {
    hide Feed, Feedable, OnNonceUsed;
    if n == 0 {
      FeedNothing(cfg, s);
    } else {
      ConsumedFeeds(cfg, s, b, n - 1);
      var s1, tx := AfterConsumed(s, b, n - 1).0, b.txs[n - 1];
      FeedOne(cfg, s1, NonceUsed(tx.sender, tx.nonce, tx.hash));
      FeedConcat(cfg, s, ConsumedInputs(b, n - 1), [NonceUsed(tx.sender, tx.nonce, tx.hash)]);
      FeedableConcat(cfg, s, ConsumedInputs(b, n - 1), [NonceUsed(tx.sender, tx.nonce, tx.hash)]);
    }
  }

  /** One act is its inputs, one after the other. */
  lemma ActFeeds(cfg: Config, s: State, a: Act)
    requires ActOk(cfg, s, a)
    ensures Feed(cfg, s, InputsOf(cfg, s, a)) == Perform(cfg, s, a)
    ensures Feedable(cfg, s, InputsOf(cfg, s, a))
  {
    hide Feed, Feedable, Step, AfterMined, AfterResolved, AfterConsumed, MinedInputs, ResolvedInputs, ConsumedInputs, WellFormed, Candidate;
    match a
    case Took(i, _) => FeedOne(cfg, s, i);
    case Landed(_, _) => FeedNothing(cfg, s);
    case Processed(b, m) =>
      var s1 := AfterMined(cfg, s, b, |b.mined|, m).0;
      var s2 := AfterResolved(cfg, s1, b, |b.txs|, m).0;
      var x, y, z := MinedInputs(b, |b.mined|, m), ResolvedInputs(cfg, s1, b, |b.txs|, m), ConsumedInputs(b, |b.txs|);
      MinedFeeds(cfg, s, b, |b.mined|, m);
      AllResolvedFeed(cfg, s1, b, |b.txs|, m);
      ConsumedFeeds(cfg, s2, b, |b.txs|);
      FeedConcat(cfg, s, x, y);
      FeedableConcat(cfg, s, x, y);
      FeedConcat(cfg, s, x + y, z);
      FeedableConcat(cfg, s, x + y, z);
  }

  /** The journal is a well-formed run of tracker inputs that emits exactly its stream. */
  lemma {:induction false} JournalFeeds(cfg: Config, origin: State, acts: seq<Act>)
    requires Lawful(cfg, origin, acts)
    ensures var c := Run(cfg, origin, acts);
            Feed(cfg, origin, AllInputs(cfg, origin, acts)) == (c.s, c.evs)
    ensures Feedable(cfg, origin, AllInputs(cfg, origin, acts))
  {
    hide Feed, Feedable, ActOk, Perform, InputsOf;
    if acts == [] {
      FeedNothing(cfg, origin);
    } else {
      var init, a := acts[..|acts| - 1], acts[|acts| - 1];
      LawfulPrefix(cfg, origin, acts, |init|);
      JournalFeeds(cfg, origin, init);
      var s := Run(cfg, origin, init).s;
      ActFeeds(cfg, s, a);
      FeedConcat(cfg, origin, AllInputs(cfg, origin, init), InputsOf(cfg, s, a));
      FeedableConcat(cfg, origin, AllInputs(cfg, origin, init), InputsOf(cfg, s, a));
    }
  }

  lemma {:induction false} FeedIsPlay(cfg: Config, inputs: seq<Input>)
    ensures Feed(cfg, FRESH, inputs).0 == Grammar.Play(cfg, inputs).s
  {
    hide Step;
    if inputs == [] {
    } else {
      FeedIsPlay(cfg, inputs[..|inputs| - 1]);
    }
  }

  /** From a fresh start the loop's inputs are a run in the sense of the grammar theorems. */
  lemma JournalIsARun(cfg: Config, acts: seq<Act>)
    requires Lawful(cfg, FRESH, acts)
    ensures var inputs := AllInputs(cfg, FRESH, acts);
            && Grammar.WellFormedRun(cfg, inputs)
            && Grammar.Play(cfg, inputs).s == Run(cfg, FRESH, acts).s
            && Feed(cfg, FRESH, inputs).1 == Run(cfg, FRESH, acts).evs
  {
    hide Feed, Run, WellFormed, Grammar.Play;
    JournalFeeds(cfg, FRESH, acts);
    var inputs := AllInputs(cfg, FRESH, acts);
    FeedIsPlay(cfg, inputs);
    forall k | 0 <= k < |inputs| ensures WellFormed(Grammar.Play(cfg, inputs[..k]).s, inputs[k]) {
      FeedIsPlay(cfg, inputs[..k]);
    }
  }
}
