/**
 Where the code stops keeping a promise, and exactly when. Other limits stand beside what they limit:
 `Books.ReorgSkips`, `Chain.OverlongScanEvictsTheHead`, `Scanning.SourcesAgreeExactly`,
 `Paging.PagingExact`, `Prefetch.DeadlockFreeExactly`.
 */
module Limits {
  import opened Types
  import opened Tombstones
  import opened Lifecycle
  import opened Invariant
  import opened Effects
  import opened Blocks
  import opened Chain
  import opened Ancestry
  import opened Journal
  import opened Film
  import opened Nodes
  import opened Heads
  import opened Matching
  import Indexing
  import Mirror
  import Storage
  import Tracking

  // ---------------------------------------------------------------- a gap without linkage

  /** The act includes `h`: a processed block whose scan matched it, or a receipt. */
  ghost predicate Includes(a: Act, h: Hash) {
    match a
    case Processed(b, _) => Scanned(b, h)
    case Took(i, _) => i.FoundMined? && i.hash == h
    case Landed(_, _) => false
  }

  lemma {:induction false} ResolvedLeaves(cfg: Config, s: State, b: Block, n: nat, m: Moment)
    requires Inv(s) && n <= |b.txs|
    ensures var s' := AfterResolved(cfg, s, b, n, m).0;
            forall h :: IsMined(s, h) ==> IsMined(s', h) && s'.txs[h] == s.txs[h]
  {
    hide Inv, OnMined;
    if n > 0 {
      ResolvedLeaves(cfg, s, b, n - 1, m);
      AfterResolvedKeeps(cfg, s, b, n - 1, m);
      var s1, h := AfterResolved(cfg, s, b, n - 1, m).0, b.txs[n - 1].hash;
      if !Scanned(b, h) && IsPending(s1, h) && h in b.receipts {
        OnMinedIsolated(cfg, s1, h, b, [], b.receipts[h], m);
      }
    }
  }

  /** A block leaves the inclusions its scan did not match exactly where they were. */
  lemma ProcessLeaves(cfg: Config, s: State, b: Block, m: Moment, h: Hash)
    requires Inv(s) && WellScanned(b) && IsMined(s, h) && !Scanned(b, h)
    ensures IsMined(Process(cfg, s, b, m).0, h) && Process(cfg, s, b, m).0.txs[h] == s.txs[h]
  {
    hide Inv, AfterMined, AfterResolved, AfterConsumed, Scanned, WellScanned;
    AfterMinedKeeps(cfg, s, b, |b.mined|, m);
    var s1 := AfterMined(cfg, s, b, |b.mined|, m).0;
    AfterResolvedKeeps(cfg, s1, b, |b.txs|, m);
    ResolvedLeaves(cfg, s1, b, |b.txs|, m);
    AfterConsumedKeeps(AfterResolved(cfg, s1, b, |b.txs|, m).0, b, |b.txs|);
  }

  /** Without a reorg, an act that does not include a transaction leaves its inclusion below the floor alone. */
  lemma ActLeaves(cfg: Config, w: World, q: nat, ask: Ask, s: State, a: Act, floor: nat, h: Hash)
    requires Inv(s) && ActOk(cfg, s, a) && Source(w, q, ask, s, a) && Spares(floor, s, a)
    requires IsMined(s, h) && s.txs[h].blockNum < floor && !Includes(a, h)
    ensures IsMined(Perform(cfg, s, a).0, h) && SamePlace(s.txs[h], Perform(cfg, s, a).0.txs[h])
  {
    hide Inv, Process, OnMined, WellScanned, Scanned, Unindex, Index, Bury, Tracking.Candidate;
    match a
    case Processed(b, m) => ProcessLeaves(cfg, s, b, m, h);
    case Took(i, _) =>
      match i
      case FoundMined(hash, block, num, transfers, failed, conf, fin, now) =>
        OnMinedIsolated(cfg, s, hash, Block(block, num, ZERO_HASH, [], [], map[]), transfers, failed, Moment(conf, fin, now));
      case SeenPending(_, _) =>
      case Verified(_, _) =>
      case Demoted(_, _) =>
      case Rechecked(_, _, _) =>
  }

  /** On a steady node every act puts inclusions on the chain or leaves them. */
  ghost predicate OnOrStill(w: World, s: State, s': State)
    requires WfTree(w.tree)
  {
    forall h :: IsMined(s', h) ==>
      || (IsMined(s, h) && SamePlace(s.txs[h], s'.txs[h]))
      || On(w.tree, w.canon, s'.txs[h].blockNum, s'.txs[h].block)
  }

  lemma ActPlacesOn(cfg: Config, w: World, q: nat, ask: Ask, s: State, a: Act)
    requires WorldOk(w) && w.steady && Inv(s) && ActOk(cfg, s, a) && Source(w, q, ask, s, a)
    ensures OnOrStill(w, s, Perform(cfg, s, a).0)
  {
    hide Inv, WorldOk, On, Process, Step, WellScanned;
    WorldTree(w);
    if a.Took? {
      Indexing.ActPlaces(cfg, w, q, ask, s, a);
    } else {
      ProcessKeeps(cfg, s, a.b, a.m);
      if w.announced(q).Some? { WorldAnnounced(w, q); }
      if w.block(q, a.b.number).Some? { WorldBlock(w, q, a.b.number); }
      WorldHead(w);
    }
  }

  lemma StillTwice(w: World, s: State, s1: State, s2: State)
    requires WfTree(w.tree) && OnOrStill(w, s, s1) && OnOrStill(w, s1, s2)
    ensures OnOrStill(w, s, s2)
  {
    hide On;
  }

  ghost predicate NoneIncludes(acts: seq<Act>, from: nat, h: Hash) {
    forall k :: from <= k < |acts| ==> !Includes(acts[k], h)
  }

  /** A stretch of the journal without a reorg. */
  lemma {:induction false} StretchLeaves(cfg: Config, origin: State, w: World, sp: Span, a: seq<Act>, b: seq<Act>, h: Hash)
    requires WorldOk(w) && w.steady && Inv(origin) && Lawful(cfg, origin, b)
    requires Grounded(cfg, origin, w, sp, a, b) && sp.fork.None?
    ensures OnOrStill(w, Run(cfg, origin, a).s, Run(cfg, origin, b).s)
    ensures IsMined(Run(cfg, origin, a).s, h) && Run(cfg, origin, a).s.txs[h].blockNum < sp.floor && NoneIncludes(b, |a|, h) ==>
      IsMined(Run(cfg, origin, b).s, h) && SamePlace(Run(cfg, origin, a).s.txs[h], Run(cfg, origin, b).s.txs[h])
    decreases |b|
  {
    hide Inv, WorldOk, ActOk, Perform, Source, Spares, Known, On, Includes;
    WorldTree(w);
    if |a| == |b| {
      assert a == b;
    } else {
      var n := |b| - 1;
      var init := b[..n];
      LawfulPrefix(cfg, origin, b, n);
      Indexing.GroundedPrefix(cfg, origin, w, sp, a, b);
      StretchLeaves(cfg, origin, w, sp, a, init, h);
      RunKeepsInv(cfg, origin, init);
      assert GroundedAt(cfg, origin, w, sp, b, n);
      assert !(b[n].Took? && b[n].i.ForkedAt? && sp.fork == Some(b[n].i.ancestor));
      var q :| |sp.lo| <= q < |sp.hi| && Source(w, q, sp.hi[q], Run(cfg, origin, init).s, b[n]);
      var s1 := Run(cfg, origin, init).s;
      ActPlacesOn(cfg, w, q, sp.hi[q], s1, b[n]);
      StillTwice(w, Run(cfg, origin, a).s, s1, Run(cfg, origin, b).s);
      if IsMined(Run(cfg, origin, a).s, h) && Run(cfg, origin, a).s.txs[h].blockNum < sp.floor && NoneIncludes(b, |a|, h) {
        assert NoneIncludes(init, |a|, h);
        ActLeaves(cfg, w, q, sp.hi[q], s1, b[n], sp.floor, h);
      }
    }
  }

  /**
   A gap head's parent linkage is not checked and nothing is rewound. An inclusion that no processed block and
   no receipt of the catch-up includes again stays where it was, on the node's chain or off it; so with `h` the
   highest inclusion tracked before, all inclusions are on the node's chain afterwards exactly when that
   chain contains `h`'s block.
   */
  lemma GapNeedsLink(cfg: Config, origin: State, boot: Boot, w: World, b: Shot, m: Shot, deep: bool, advanced: bool, trail: Trail, h: Hash)
    requires WorldOk(w) && w.steady && Inv(origin) && Lawful(cfg, origin, m.acts)
    requires Shown(cfg, origin, boot, b) && Shown(cfg, origin, boot, m) && Treated(cfg, origin, w, b, m, Gap, deep, advanced, trail)
    requires Canonical(w.tree, b.s, b.buf, b.tip) && LevelAt(b.tip, b.last)
    requires IsMined(b.s, h) && forall h' :: IsMined(b.s, h') ==> b.s.txs[h'].blockNum <= b.s.txs[h].blockNum
    requires NoneIncludes(m.acts, |b.acts|, h)
    ensures IsMined(m.s, h) && SamePlace(b.s.txs[h], m.s.txs[h])
    ensures (forall h' :: IsMined(m.s, h') ==> On(w.tree, w.canon, m.s.txs[h'].blockNum, m.s.txs[h'].block))
            <==> On(w.tree, w.canon, b.s.txs[h].blockNum, b.s.txs[h].block)
  {
    hide Run, Inv, WorldOk, Grounded, Lawful, GapClosed, Walk, FilmOf, RecordedAll, Known;
    WorldTree(w);
    StretchLeaves(cfg, origin, w, GroundOf(w, b, m, Gap), b.acts, m.acts, h);
    var n := b.s.txs[h].blockNum;
    if On(w.tree, w.canon, n, b.s.txs[h].block) {
      CanonicalOn(w.tree, w.canon, b.s, b.buf, b.tip.value, n);
    }
  }

  // ---------------------------------------------------------------- a receipt ahead of the chain view

  lemma {:induction false} ScannedHere(cfg: Config, s: State, b: Block, n: nat, m: Moment, i: nat)
    requires Inv(s) && WellScanned(b) && i < n <= |b.mined|
    ensures var h, s' := b.mined[i].hash, AfterMined(cfg, s, b, n, m).0;
            h in s'.txs ==> s'.txs[h].block == b.hash
  {
    hide Inv, OnMined;
    AfterMinedKeeps(cfg, s, b, n - 1, m);
    var tx := b.mined[n - 1];
    OnMinedIsolated(cfg, AfterMined(cfg, s, b, n - 1, m).0, tx.hash, b, tx.transfers, tx.failed, m);
    if i < n - 1 { ScannedHere(cfg, s, b, n - 1, m, i); }
  }

  /** A matched transaction that is still tracked after the block is in the block. */
  lemma ProcessMoves(cfg: Config, s: State, b: Block, m: Moment, h: Hash)
    requires Inv(s) && WellScanned(b) && Scanned(b, h)
    ensures h in Process(cfg, s, b, m).0.txs ==> Process(cfg, s, b, m).0.txs[h].block == b.hash
  {
    hide Inv, AfterMined, AfterResolved, AfterConsumed, WellScanned;
    var i :| 0 <= i < |b.mined| && b.mined[i].hash == h;
    ScannedHere(cfg, s, b, |b.mined|, m, i);
    AfterMinedKeeps(cfg, s, b, |b.mined|, m);
    var s1 := AfterMined(cfg, s, b, |b.mined|, m).0;
    AfterResolvedKeeps(cfg, s1, b, |b.txs|, m);
    AfterConsumedKeeps(AfterResolved(cfg, s1, b, |b.txs|, m).0, b, |b.txs|);
  }

  /** Up to the tip every inclusion is on its chain; further ones are wherever a receipt put them. */
  ghost predicate CanonicalBelow(t: Tree, s: State, tip: HeadRef)
    requires WfTree(t)
  {
    forall h :: IsMined(s, h) ==>
      && t(s.txs[h].block).number == s.txs[h].blockNum
      && (s.txs[h].blockNum <= tip.number ==> On(t, tip.hash, s.txs[h].blockNum, s.txs[h].block))
  }

  /** An inclusion ahead of the tip that block `b` neither is nor has matched. */
  ghost predicate Stranded(s: State, tip: HeadRef, b: Block, h: Hash) {
    IsMined(s, h) && s.txs[h].blockNum > tip.number && s.txs[h].block != b.hash && !Scanned(b, h)
  }

  /**
   A node a block ahead of the announced head serves receipts past the tip, and the transaction is tracked
   there. When the next head extends the tip, nothing is demoted: all inclusions are on its chain exactly
   when the block accounts for every inclusion ahead of the tip.
   */
  lemma AheadReceipt(t: Tree, cfg: Config, s: State, tip: HeadRef, b: Block, m: Moment)
    requires WfTree(t) && Inv(s) && WellScanned(b) && CanonicalBelow(t, s, tip)
    requires t(tip.hash).number == tip.number && b.number == tip.number + 1
    requires t(b.hash) == HeadRef(b.number, b.hash, tip.hash)
    ensures TxsOn(t, b.hash, Process(cfg, s, b, m).0, b.number) <==> forall h :: !Stranded(s, tip, b, h)
  {
    hide Inv, Process, WellScanned, Scanned;
    ProcessKeeps(cfg, s, b, m);
    var s' := Process(cfg, s, b, m).0;
    forall h | Stranded(s, tip, b, h) ensures IsMined(s', h) && s'.txs[h] == s.txs[h] {
      ProcessLeaves(cfg, s, b, m, h);
    }
    if forall h :: !Stranded(s, tip, b, h) {
      forall h | IsMined(s', h) ensures s'.txs[h].blockNum <= b.number && On(t, b.hash, s'.txs[h].blockNum, s'.txs[h].block) {
        if IsMined(s, h) && SamePlace(s.txs[h], s'.txs[h]) {
          assert !Stranded(s, tip, b, h);
          if Scanned(b, h) { ProcessMoves(cfg, s, b, m, h); }
        }
      }
    }
  }

  /** Two blocks on top of block 10 at height 1: the node's receipt names one, the announced head is the other. */
  function Siblings(h: Hash): HeadRef {
    if h == 10 then HeadRef(1, 10, 1)
    else if h == 20 || h == 21 then HeadRef(2, h, 10)
    else HeadRef(0, h, 1)
  }

  /** The transaction was seen pending, its receipt named block 20, then head 21 extends the tip: it stays in block 20. */
  lemma AheadReceiptStrands() returns (cfg: Config, s: State, b: Block, m: Moment)
    ensures WfTree(Siblings) && Inv(s) && WellScanned(b) && CanonicalBelow(Siblings, s, HeadRef(1, 10, 1))
    ensures b.number == 2 && Siblings(b.hash) == HeadRef(2, b.hash, 10)
    ensures exists i: Input, j: Input :: i.SeenPending? && j.FoundMined? && s == Step(cfg, Step(cfg, FRESH, i).0, j).0
    ensures !TxsOn(Siblings, b.hash, Process(cfg, s, b, m).0, b.number)
  {
    hide Inv, Process, On, TxsOn, SamePlace;
    cfg := Config(false, 12, 0);
    Indexing.FreshOk();
    var leg := Match(7, 1, 2, Direction.In, "ETH", None, 18, 5, None, 1, 0);
    var i, j := SeenPending([leg], 100), FoundMined(7, 20, 2, [leg], false, 1, 0, 112);
    var s1 := Step(cfg, FRESH, i).0;
    StepKeepsInv(cfg, FRESH, i);
    StepKeepsInv(cfg, s1, j);
    s := Step(cfg, s1, j).0;
    b, m := Block(21, 2, 10, [], [], map[]), Moment(1, 0, 112);
    assert IsMined(s, 7) && s.txs[7].block == 20 && s.txs[7].blockNum == 2;
    assert forall h :: h in s.txs ==> h == 7;
    assert Stranded(s, HeadRef(1, 10, 1), b, 7);
    AheadReceipt(Siblings, cfg, s, HeadRef(1, 10, 1), b, m);
  }

  // ---------------------------------------------------------------- a failure seen twice

  /** Where the first scan of a mined transaction leaves it. */
  lemma FirstScan(cfg: Config, s: State, hash: Hash, block: Hash, blockNum: nat, transfers: seq<Match>,
                  failed: bool, confirmations: nat, finalized: nat, now: Time)
    requires Inv(s) && !ConfirmedGrave(s, hash)
    ensures var s1 := OnMined(cfg, s, hash, block, blockNum, transfers, failed, confirmations, finalized, now).0;
            var there := IsMined(s, hash) && s.txs[hash].block == block;
            && (failed && !there ==> hash !in s1.txs && !ConfirmedGrave(s1, hash))
            && (!failed || there ==>
                 || (IsMined(s1, hash) && s1.txs[hash].block == block && !ConfirmedGrave(s1, hash))
                 || ConfirmedGrave(s1, hash)
                 || (hash !in s1.txs && transfers == []))
  {
    hide Bury, Tombstones.Clear, Tombstones.Valid, NonceExact, Index, Unindex;
    var s0 := Exhume(s, hash);
    ExhumeKeepsInv(s, hash);
    BuryRemembers(s0.memory, hash, Confirmed);
    BuryRemembers(s0.memory, hash, Failed);
  }

  /** The scan of a transaction nobody tracks: a failed one reports every leg. */
  lemma UntrackedScan(cfg: Config, s: State, hash: Hash, block: Hash, blockNum: nat, transfers: seq<Match>,
                      failed: bool, confirmations: nat, finalized: nat, now: Time)
    requires hash !in s.txs && !ConfirmedGrave(s, hash) && (failed || transfers == [])
    ensures var evs := OnMined(cfg, s, hash, block, blockNum, transfers, failed, confirmations, finalized, now).1;
            && |evs| == (if failed then |transfers| else 0) && forall i :: 0 <= i < |evs| ==> evs[i].typ == Failed
  {
    hide Bury, Tombstones.Clear, Unindex;
  }

  /**
   A rescan of one mined transaction emits nothing, unless it reverted with legs of its own and was not
   already tracked in the block: then `failed` is emitted again for every leg.
   */
  lemma RescanRepeatsFailure(cfg: Config, s: State, hash: Hash, block: Hash, blockNum: nat, transfers: seq<Match>,
                             failed: bool, confirmations: nat, finalized: nat, now: Time)
    requires Inv(s) && !ConfirmedGrave(s, hash)
    ensures var s1 := OnMined(cfg, s, hash, block, blockNum, transfers, failed, confirmations, finalized, now).0;
            var evs := OnMined(cfg, s1, hash, block, blockNum, transfers, failed, confirmations, finalized, now).1;
            && (evs != [] <==> failed && transfers != [] && !(IsMined(s, hash) && s.txs[hash].block == block))
            && (evs != [] ==> |evs| == |transfers| && forall i :: 0 <= i < |evs| ==> evs[i].typ == Failed)
  {
    hide Inv, Judge, IntoBlock, OnMined;
    FirstScan(cfg, s, hash, block, blockNum, transfers, failed, confirmations, finalized, now);
    var s1 := OnMined(cfg, s, hash, block, blockNum, transfers, failed, confirmations, finalized, now).0;
    KnownScan(cfg, s1, hash, block, blockNum, transfers, failed, confirmations, finalized, now);
    if hash !in s1.txs && !ConfirmedGrave(s1, hash) {
      UntrackedScan(cfg, s1, hash, block, blockNum, transfers, failed, confirmations, finalized, now);
    }
  }

  lemma KnownScan(cfg: Config, s: State, hash: Hash, block: Hash, blockNum: nat, transfers: seq<Match>,
                  failed: bool, confirmations: nat, finalized: nat, now: Time)
    ensures ConfirmedGrave(s, hash) || (IsMined(s, hash) && s.txs[hash].block == block) ==>
      OnMined(cfg, s, hash, block, blockNum, transfers, failed, confirmations, finalized, now).1 == []
  {
    hide Judge, IntoBlock, Tombstones.Clear;
  }

  /** The two legs a pending call can have both lack a log index: such a transaction cannot be stored. */
  lemma PendingClash(m: Matcher, tx: BodyTx)
    ensures Mirror.DistinctLegs(MatchBlockTx(m, tx)) <==> |MatchBlockTx(m, tx)| <= 1
  {
    hide DecodeERC20Transfer;
    var legs := MatchBlockTx(m, tx);
    if |legs| == 2 {
      assert Storage.IndexOf(Tracking.ExportedLegs(legs)[0]) == Storage.IndexOf(Tracking.ExportedLegs(legs)[1]);
    }
  }

  /** A token transfer call that also carries native value, from a watched wallet: such a transaction exists. */
  lemma TwoLegs() returns (m: Matcher, tx: BodyTx)
    ensures |MatchBlockTx(m, tx)| == 2 && !Mirror.DistinctLegs(MatchBlockTx(m, tx))
  {
    hide DecodeERC20Transfer, EncodeTransfer;
    m := Matcher({1}, map[2 := Token("USD", 6)], "ETH");
    tx := BodyTx(7, 1, Some(2), 5, EncodeTransfer(3, 4), 0);
    TransferCallMatched(m, tx, 2, 3, 4);
    PendingClash(m, tx);
  }
}
