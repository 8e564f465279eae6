/** Scanning a block twice: the overlap a reorg rescan or a repeated catch-up produces is silent. */
module Rescan {
  import opened Types
  import opened Tombstones
  import opened Lifecycle
  import opened Invariant
  import opened Effects
  import opened Blocks

  /** No transaction the block matched or resolved reverted. */
  ghost predicate NoReverts(b: Block) {
    && (forall i :: 0 <= i < |b.mined| ==> !b.mined[i].failed)
    && (forall h :: h in b.receipts ==> !b.receipts[h])
  }

  /** The tombstones of the block's matched transactions are too young to be evicted by burial number `last`. */
  ghost predicate YoungGraves(m: Memory, b: Block, last: nat) {
    && last < m.last + CAP
    && (forall i :: 0 <= i < |b.mined| && b.mined[i].hash in m.live ==> last < m.live[b.mined[i].hash].seqNo + CAP)
  }

  /** `s'` tracks what `s` tracks, and buried nothing that made room for more than `n` graves. */
  ghost predicate Unmoved(s: State, s': State) {
    s'.txs == s.txs && s'.byNonce == s.byNonce && s.memory.last <= s'.memory.last
  }

  // ---------------------------------------------------------------- what the first scan leaves

  ghost predicate SettledUpTo(s: State, b: Block, n: nat)
    requires n <= |b.mined|
  {
    forall i :: 0 <= i < n ==> Settled(s, b, b.mined[i])
  }

  /** All graves of `m` that matter are at least as young as the reference memory says. */
  ghost predicate YoungFrom(m0: Memory, m: Memory, b: Block) {
    forall i :: 0 <= i < |b.mined| && b.mined[i].hash in m.live ==>
      || (b.mined[i].hash in m0.live && m.live[b.mined[i].hash] == m0.live[b.mined[i].hash])
      || m.live[b.mined[i].hash].seqNo > m0.last
  }

  lemma YoungFromStays(m0: Memory, m: Memory, b: Block, h: Hash, last: nat)
    requires YoungGraves(m0, b, last) && YoungFrom(m0, m, b) && Scanned(b, h) && h in m.live
    ensures last < m.live[h].seqNo + CAP
  {
  }

  /** The shape of every step's effect on one tombstone, forgetting everything else. */
  ghost predicate GraveStep(m: Memory, m': Memory, h: Hash) {
    h in m'.live ==> (h in m.live && m'.live[h] == m.live[h]) || m'.live[h].seqNo > m.last
  }

  lemma MinedGraveStep(cfg: Config, s: State, hash: Hash, b: Block, transfers: seq<Match>, failed: bool, m: Moment, h: Hash)
    requires Inv(s) && LegsOf(transfers, hash)
    ensures var (s', evs) := OnMined(cfg, s, hash, b.hash, b.number, transfers, failed, m.confirmations, m.finalized, m.now);
            && GraveStep(s.memory, s'.memory, h)
            && (h != hash ==> Ages(s.memory, s'.memory, h))
            && (ConfirmedGrave(s, h) ==> Ages(s.memory, s'.memory, h))
  {
    hide Inv;
    MinedGraveCore(cfg, s, hash, b, transfers, failed, m, h) by { InvParts(s); }
  }

  lemma InvParts(s: State)
    requires Inv(s)
    ensures Tombstones.Valid(s.memory) && Graves(s) && forall h :: h in s.txs ==> TxOk(h, s.txs[h])
  {
  }

  lemma MinedGraveCore(cfg: Config, s: State, hash: Hash, b: Block, transfers: seq<Match>, failed: bool, m: Moment, h: Hash)
    requires Tombstones.Valid(s.memory)
    ensures var s' := OnMined(cfg, s, hash, b.hash, b.number, transfers, failed, m.confirmations, m.finalized, m.now).0;
            && GraveStep(s.memory, s'.memory, h)
            && (h != hash ==> Ages(s.memory, s'.memory, h))
            && (ConfirmedGrave(s, h) ==> Ages(s.memory, s'.memory, h))
  {
    hide Tombstones.Valid, OnMined, Bury, Queue, Without;
    MinedMemory(cfg, s, hash, b, transfers, failed, m);
    ClearRefines(s.memory, hash);
    var s1 := Exhume(s, hash);
    BuryEffect(s1.memory, hash, Failed, h);
    BuryEffect(s1.memory, hash, Confirmed, h);
  }

  /** An inclusion exhumes, and buries at most once. */
  lemma MinedMemory(cfg: Config, s: State, hash: Hash, b: Block, transfers: seq<Match>, failed: bool, m: Moment)
    ensures var s' := OnMined(cfg, s, hash, b.hash, b.number, transfers, failed, m.confirmations, m.finalized, m.now).0;
            var s1 := Exhume(s, hash);
            || (ConfirmedGrave(s, hash) && s' == s)
            || (!ConfirmedGrave(s, hash)
                && s'.memory in {s1.memory, Bury(s1.memory, hash, Failed), Bury(s1.memory, hash, Confirmed)})
  {
    hide Bury, Unindex, Events, Tombstones.Clear, Included, Discovered;
  }

  // ---------------------------------------------------------------- the first scan

  /** On the way from `s0` with at most `last` burials in all: the first `n` matched transactions are settled. */
  ghost predicate OnTheWay(s0: State, s: State, b: Block, n: nat, last: nat)
    requires n <= |b.mined|
  {
    && Inv(s) && s0.memory.last <= s.memory.last <= last
    && YoungFrom(s0.memory, s.memory, b)
    && SettledUpTo(s, b, n)
  }

  /** A step that leaves a settled transaction's record alone and only ages its grave keeps it settled. */
  lemma SettledStays(s0: State, s: State, s': State, b: Block, i: nat, last: nat)
    requires i < |b.mined| && Settled(s, b, b.mined[i]) && YoungGraves(s0.memory, b, last)
    requires YoungFrom(s0.memory, s.memory, b) && s'.memory.last <= last
    requires var h := b.mined[i].hash;
             && (h in s'.txs <==> h in s.txs) && (h in s.txs ==> s'.txs[h] == s.txs[h])
             && (ConfirmedGrave(s, h) ==> Ages(s.memory, s'.memory, h))
    ensures Settled(s', b, b.mined[i])
  {
    var h := b.mined[i].hash;
    if ConfirmedGrave(s, h) {
      assert Scanned(b, h);
      YoungFromStays(s0.memory, s.memory, b, h, last);
    }
  }

  lemma YoungStep(m0: Memory, m: Memory, m': Memory, b: Block)
    requires m0.last <= m.last && YoungFrom(m0, m, b)
    requires forall h :: Scanned(b, h) ==> GraveStep(m, m', h)
    ensures YoungFrom(m0, m', b)
  {
    forall i | 0 <= i < |b.mined| && b.mined[i].hash in m'.live
      ensures (b.mined[i].hash in m0.live && m'.live[b.mined[i].hash] == m0.live[b.mined[i].hash])
           || m'.live[b.mined[i].hash].seqNo > m0.last
    {
      assert Scanned(b, b.mined[i].hash);
    }
  }

  lemma MinedOneOnTheWay(cfg: Config, s0: State, s1: State, b: Block, n: nat, m: Moment, last: nat)
    requires 0 < n <= |b.mined| && WellScanned(b) && NoReverts(b) && YoungGraves(s0.memory, b, last)
    requires OnTheWay(s0, s1, b, n - 1, last)
    requires var tx := b.mined[n - 1];
             OnMined(cfg, s1, tx.hash, b.hash, b.number, tx.transfers, tx.failed, m.confirmations, m.finalized, m.now).0.memory.last <= last
    ensures var tx := b.mined[n - 1];
            OnTheWay(s0, OnMined(cfg, s1, tx.hash, b.hash, b.number, tx.transfers, tx.failed, m.confirmations, m.finalized, m.now).0, b, n, last)
  {
    hide Inv, OnMined, YoungGraves, Settled, YoungFrom, GraveStep, Ages;
    var tx := b.mined[n - 1];
    var s2 := OnMined(cfg, s1, tx.hash, b.hash, b.number, tx.transfers, tx.failed, m.confirmations, m.finalized, m.now).0;
    OnMinedIsolated(cfg, s1, tx.hash, b, tx.transfers, tx.failed, m);
    forall h ensures GraveStep(s1.memory, s2.memory, h) {
      MinedGraveStep(cfg, s1, tx.hash, b, tx.transfers, tx.failed, m, h);
    }
    YoungStep(s0.memory, s1.memory, s2.memory, b);
    forall i | 0 <= i < n - 1 ensures Settled(s2, b, b.mined[i]) {
      MinedGraveStep(cfg, s1, tx.hash, b, tx.transfers, tx.failed, m, b.mined[i].hash);
      SettledStays(s0, s1, s2, b, i, last);
    }
    InvParts(s1);
    OnMinedSettles(cfg, s1, b, tx, m);
  }

  lemma AfterMinedSnoc(cfg: Config, s: State, b: Block, n: nat, m: Moment)
    requires 0 < n <= |b.mined|
    ensures var tx := b.mined[n - 1];
            AfterMined(cfg, s, b, n, m).0
            == OnMined(cfg, AfterMined(cfg, s, b, n - 1, m).0, tx.hash, b.hash, b.number, tx.transfers, tx.failed, m.confirmations, m.finalized, m.now).0
  {
  }

  lemma LegsAt(b: Block, i: nat)
    requires WellScanned(b) && i < |b.mined|
    ensures LegsOf(b.mined[i].transfers, b.mined[i].hash)
  {
  }

  lemma MinedGrows(cfg: Config, s: State, b: Block, n: nat, m: Moment)
    requires Inv(s) && WellScanned(b) && 0 < n <= |b.mined|
    ensures AfterMined(cfg, s, b, n - 1, m).0.memory.last <= AfterMined(cfg, s, b, n, m).0.memory.last
  {
    hide Inv, OnMined, WellScanned, AfterMined, LegsOf, PlacedBy;
    AfterMinedSnoc(cfg, s, b, n, m);
    LegsAt(b, n - 1);
    var s1, tx := AfterMined(cfg, s, b, n - 1, m).0, b.mined[n - 1];
    AfterMinedKeeps(cfg, s, b, n - 1, m);
    OnMinedIsolated(cfg, s1, tx.hash, b, tx.transfers, tx.failed, m);
  }

  lemma NothingYet(cfg: Config, s: State, b: Block, m: Moment, last: nat)
    requires Inv(s) && s.memory.last <= last
    ensures AfterMined(cfg, s, b, 0, m).0 == s && OnTheWay(s, s, b, 0, last)
  {
  }

  lemma {:induction false} MinedOnTheWay(cfg: Config, s: State, b: Block, n: nat, m: Moment, last: nat)
    requires Inv(s) && WellScanned(b) && NoReverts(b) && n <= |b.mined| && YoungGraves(s.memory, b, last)
    requires AfterMined(cfg, s, b, n, m).0.memory.last <= last
    requires s.memory.last <= last
    ensures OnTheWay(s, AfterMined(cfg, s, b, n, m).0, b, n, last)
  {
    hide Inv, OnMined, YoungGraves, OnTheWay, WellScanned, NoReverts, AfterMined;
    if n == 0 {
      NothingYet(cfg, s, b, m, last);
    } else {
      MinedGrows(cfg, s, b, n, m);
      MinedOnTheWay(cfg, s, b, n - 1, m, last);
      AfterMinedSnoc(cfg, s, b, n, m);
      MinedOneOnTheWay(cfg, s, AfterMined(cfg, s, b, n - 1, m).0, b, n, m, last);
    }
  }

  /** Any later step of the same block: resolving an unmatched transaction or consuming a slot. */
  ghost predicate SparesScanned(s: State, s': State, b: Block) {
    && Inv(s') && s.memory.last <= s'.memory.last
    && forall i :: 0 <= i < |b.mined| ==>
         var h := b.mined[i].hash;
         && GraveStep(s.memory, s'.memory, h)
         && (ConfirmedGrave(s, h) ==> Ages(s.memory, s'.memory, h))
         && (!IsPending(s, h) ==> (h in s'.txs <==> h in s.txs) && (h in s.txs ==> s'.txs[h] == s.txs[h]))
  }

  lemma SparedOnTheWay(s0: State, s: State, s': State, b: Block, last: nat)
    requires OnTheWay(s0, s, b, |b.mined|, last) && SparesScanned(s, s', b)
    requires YoungGraves(s0.memory, b, last) && s'.memory.last <= last
    requires forall i :: 0 <= i < |b.mined| ==> !IsPending(s, b.mined[i].hash)
    ensures OnTheWay(s0, s', b, |b.mined|, last)
    ensures forall i :: 0 <= i < |b.mined| ==> !IsPending(s', b.mined[i].hash)
  {
    hide Inv, YoungGraves, Settled, GraveStep;
    forall h | Scanned(b, h) ensures GraveStep(s.memory, s'.memory, h) {
      var i :| 0 <= i < |b.mined| && b.mined[i].hash == h;
    }
    YoungStep(s0.memory, s.memory, s'.memory, b);
    forall i | 0 <= i < |b.mined| ensures Settled(s', b, b.mined[i]) {
      SettledStays(s0, s, s', b, i, last);
    }
  }

  lemma ResolveSpares(cfg: Config, s: State, b: Block, h: Hash, m: Moment)
    requires Inv(s)
    ensures SparesScanned(s, ResolveOne(cfg, s, b, h, m).0, b)
  {
    hide Inv, OnMined;
    if !Scanned(b, h) && IsPending(s, h) && h in b.receipts {
      OnMinedIsolated(cfg, s, h, b, [], b.receipts[h], m);
      var s' := ResolveOne(cfg, s, b, h, m).0;
      forall i | 0 <= i < |b.mined|
        ensures GraveStep(s.memory, s'.memory, b.mined[i].hash) && Ages(s.memory, s'.memory, b.mined[i].hash)
      {
        MinedGraveStep(cfg, s, h, b, [], b.receipts[h], m, b.mined[i].hash);
      }
      assert forall i :: 0 <= i < |b.mined| ==> b.mined[i].hash != h;
    }
  }

  lemma ConsumeSpares(s: State, b: Block, tx: BlockTx)
    requires Inv(s)
    ensures SparesScanned(s, OnNonceUsed(s, tx.sender, tx.nonce, tx.hash).0, b)
  {
    var s' := OnNonceUsed(s, tx.sender, tx.nonce, tx.hash).0;
    ConsumeKeeps(s, tx);
    InvParts(s);
    hide Inv, SlotFree;
    forall i | 0 <= i < |b.mined|
      ensures var h := b.mined[i].hash;
              && GraveStep(s.memory, s'.memory, h)
              && (ConfirmedGrave(s, h) ==> Ages(s.memory, s'.memory, h))
              && (!IsPending(s, h) ==> (h in s'.txs <==> h in s.txs) && (h in s.txs ==> s'.txs[h] == s.txs[h]))
    {
      ReplaceAllAges(s, Occupants(s.byNonce, NonceKey(tx.sender, tx.nonce)), tx.hash, b.mined[i].hash);
    }
  }

  lemma ResolvedGrows(cfg: Config, s: State, b: Block, n: nat, m: Moment)
    requires Inv(s) && 0 < n <= |b.txs|
    ensures var s1, s2 := AfterResolved(cfg, s, b, n - 1, m).0, AfterResolved(cfg, s, b, n, m).0;
            SparesScanned(s1, s2, b) && s1.memory.last <= s2.memory.last
  {
    hide Inv, PlacedBy, ResolveOne, Scanned;
    AfterResolvedKeeps(cfg, s, b, n - 1, m);
    ResolveSpares(cfg, AfterResolved(cfg, s, b, n - 1, m).0, b, b.txs[n - 1].hash, m);
  }

  lemma {:induction false} ResolvedOnTheWay(cfg: Config, s0: State, s: State, b: Block, n: nat, m: Moment, last: nat)
    requires OnTheWay(s0, s, b, |b.mined|, last) && n <= |b.txs| && YoungGraves(s0.memory, b, last)
    requires forall i :: 0 <= i < |b.mined| ==> !IsPending(s, b.mined[i].hash)
    requires AfterResolved(cfg, s, b, n, m).0.memory.last <= last
    ensures var s' := AfterResolved(cfg, s, b, n, m).0;
            OnTheWay(s0, s', b, |b.mined|, last) && forall i :: 0 <= i < |b.mined| ==> !IsPending(s', b.mined[i].hash)
  {
    hide Inv, YoungGraves, SparesScanned, SettledUpTo, YoungFrom;
    if n > 0 {
      ResolvedGrows(cfg, s, b, n, m);
      ResolvedOnTheWay(cfg, s0, s, b, n - 1, m, last);
      SparedOnTheWay(s0, AfterResolved(cfg, s, b, n - 1, m).0, AfterResolved(cfg, s, b, n, m).0, b, last);
    }
  }

  lemma ConsumedGrows(s: State, b: Block, n: nat)
    requires Inv(s) && 0 < n <= |b.txs|
    ensures var s1, s2 := AfterConsumed(s, b, n - 1).0, AfterConsumed(s, b, n).0;
            SparesScanned(s1, s2, b) && s1.memory.last <= s2.memory.last
  {
    hide Inv, OnNonceUsed, SlotFree;
    AfterConsumedKeeps(s, b, n - 1);
    ConsumeSpares(AfterConsumed(s, b, n - 1).0, b, b.txs[n - 1]);
  }

  lemma {:induction false} ConsumedOnTheWay(s0: State, s: State, b: Block, n: nat, last: nat)
    requires OnTheWay(s0, s, b, |b.mined|, last) && n <= |b.txs| && YoungGraves(s0.memory, b, last)
    requires forall i :: 0 <= i < |b.mined| ==> !IsPending(s, b.mined[i].hash)
    requires AfterConsumed(s, b, n).0.memory.last <= last
    ensures var s' := AfterConsumed(s, b, n).0;
            OnTheWay(s0, s', b, |b.mined|, last) && forall i :: 0 <= i < |b.mined| ==> !IsPending(s', b.mined[i].hash)
  {
    hide Inv, YoungGraves, SparesScanned, SettledUpTo, YoungFrom;
    if n > 0 {
      ConsumedGrows(s, b, n);
      ConsumedOnTheWay(s0, s, b, n - 1, last);
      SparedOnTheWay(s0, AfterConsumed(s, b, n - 1).0, AfterConsumed(s, b, n).0, b, last);
    }
  }

  lemma ProcessSettles(cfg: Config, s: State, b: Block, m: Moment, last: nat)
    requires Inv(s) && WellScanned(b) && NoReverts(b) && YoungGraves(s.memory, b, last)
    requires Process(cfg, s, b, m).0.memory.last <= last
    ensures OnTheWay(s, Process(cfg, s, b, m).0, b, |b.mined|, last)
  {
    hide Inv, YoungGraves, YoungFrom, SettledUpTo, PlacedBy, AfterMined, AfterResolved, AfterConsumed, Scanned, SlotFree;
    AfterMinedKeeps(cfg, s, b, |b.mined|, m);
    var s1 := AfterMined(cfg, s, b, |b.mined|, m).0;
    AfterResolvedKeeps(cfg, s1, b, |b.txs|, m);
    var s2 := AfterResolved(cfg, s1, b, |b.txs|, m).0;
    AfterConsumedKeeps(s2, b, |b.txs|);
    MinedOnTheWay(cfg, s, b, |b.mined|, m, last);
    ResolvedOnTheWay(cfg, s, s1, b, |b.txs|, m, last);
    ConsumedOnTheWay(s, s2, b, |b.txs|, last);
  }

  // ---------------------------------------------------------------- the second scan

  /** A settled transaction is found again without a sound; at worst a calldata guess is buried again. */
  lemma FoundAgain(cfg: Config, s: State, b: Block, tx: MinedTx, m: Moment)
    requires Tombstones.Valid(s.memory) && Graves(s) && Settled(s, b, tx) && !tx.failed
    ensures var (s', evs) := OnMined(cfg, s, tx.hash, b.hash, b.number, tx.transfers, tx.failed, m.confirmations, m.finalized, m.now);
            && evs == [] && Unmoved(s, s') && s'.memory.last <= s.memory.last + 1
  {
    hide Tombstones.Valid, Bury, Queue, Without, Events;
    ClearRefines(s.memory, tx.hash);
    var s1 := Exhume(s, tx.hash);
    BuryRefines(s1.memory, tx.hash, Failed);
    if tx.hash !in s.txs && !ConfirmedGrave(s, tx.hash) {
      var s2 := IntoBlock(s1, tx.hash, b.hash, b.number, tx.transfers, m.now);
      assert s2.txs - {tx.hash} == s.txs;
    }
  }

  lemma {:induction false} MinedAgain(cfg: Config, s0: State, s: State, b: Block, n: nat, m: Moment, last: nat)
    requires OnTheWay(s0, s, b, |b.mined|, last) && WellScanned(b) && NoReverts(b)
    requires n <= |b.mined| && s.memory.last + n <= last && YoungGraves(s0.memory, b, last)
    ensures var (s', evs) := AfterMined(cfg, s, b, n, m);
            && evs == [] && Unmoved(s, s') && s'.memory.last <= s.memory.last + n
            && OnTheWay(s0, s', b, |b.mined|, last)
  {
    hide Inv, OnMined, YoungGraves, YoungFrom, Settled, Scanned, GraveStep;
    if n == 0 {
    } else {
      MinedAgain(cfg, s0, s, b, n - 1, m, last);
      var s1, tx := AfterMined(cfg, s, b, n - 1, m).0, b.mined[n - 1];
      InvParts(s1);
      assert Settled(s1, b, tx);
      FoundAgain(cfg, s1, b, tx, m);
      OnMinedIsolated(cfg, s1, tx.hash, b, tx.transfers, tx.failed, m);
      var s2 := AfterMined(cfg, s, b, n, m).0;
      forall h ensures GraveStep(s1.memory, s2.memory, h) {
        MinedGraveStep(cfg, s1, tx.hash, b, tx.transfers, tx.failed, m, h);
      }
      YoungStep(s0.memory, s1.memory, s2.memory, b);
      forall i | 0 <= i < |b.mined| ensures Settled(s2, b, b.mined[i]) {
        MinedGraveStep(cfg, s1, tx.hash, b, tx.transfers, tx.failed, m, b.mined[i].hash);
        SettledStays(s0, s1, s2, b, i, last);
      }
    }
  }

  /** Nothing of the block is pending, and none of its slots is occupied. */
  ghost predicate Resolved(s: State, b: Block) {
    forall i, h :: 0 <= i < |b.txs| && IsPending(s, h) ==>
      h != b.txs[i].hash && !Occupies(s.txs[h], NonceKey(b.txs[i].sender, b.txs[i].nonce))
  }

  lemma {:induction false} ResolvedAgain(cfg: Config, s: State, b: Block, n: nat, m: Moment)
    requires Resolved(s, b) && n <= |b.txs|
    ensures AfterResolved(cfg, s, b, n, m) == (s, [])
  {
    if n > 0 {
      ResolvedAgain(cfg, s, b, n - 1, m);
      assert !IsPending(s, b.txs[n - 1].hash);
      assert ResolveOne(cfg, s, b, b.txs[n - 1].hash, m) == (s, []);
      var none: seq<Event> := [];
      assert none + none == none;
    }
  }

  lemma FreeSlot(s: State, b: Block, i: nat)
    requires NonceExact(s.txs, s.byNonce) && Resolved(s, b) && i < |b.txs|
    ensures OnNonceUsed(s, b.txs[i].sender, b.txs[i].nonce, b.txs[i].hash) == (s, [])
  {
    var key := NonceKey(b.txs[i].sender, b.txs[i].nonce);
    OccupantsExact(s, key);
    var occ := Occupants(s.byNonce, key);
    FirstMember(occ);
  }

  lemma FirstMember(hashes: seq<Hash>)
    ensures hashes != [] ==> hashes[0] in hashes
  {
  }

  lemma {:induction false} ConsumedAgain(s: State, b: Block, n: nat)
    requires NonceExact(s.txs, s.byNonce) && Resolved(s, b) && n <= |b.txs|
    ensures AfterConsumed(s, b, n) == (s, [])
  {
    hide NonceExact, Resolved, OnNonceUsed;
    if n > 0 {
      ConsumedAgain(s, b, n - 1);
      FreeSlot(s, b, n - 1);
      var none: seq<Event> := [];
      assert none + none == none;
    }
  }

  /**
   Processing a block again right away emits nothing and moves neither the tracked transactions nor the
   nonce index, provided no matched or resolved transaction reverted, every receipt was served, and the
   burials of the two scans are too few to evict a grave of the block.
   */
  lemma RescanIsSilent(cfg: Config, s: State, b: Block, m: Moment, m': Moment)
    requires Inv(s) && WellScanned(b) && NoReverts(b) && ReceiptsComplete(b)
    requires YoungGraves(s.memory, b, Process(cfg, s, b, m).0.memory.last + |b.mined|)
    ensures var s1 := Process(cfg, s, b, m).0;
            var (s2, evs) := Process(cfg, s1, b, m');
            evs == [] && s2.txs == s1.txs && s2.byNonce == s1.byNonce
  {
    hide Inv, YoungGraves, YoungFrom, SettledUpTo, AfterMined, AfterResolved, AfterConsumed, Occupies;
    var s1 := Process(cfg, s, b, m).0;
    var last := s1.memory.last + |b.mined|;
    ProcessKeeps(cfg, s, b, m);
    ProcessSettles(cfg, s, b, m, last);
    BlockResolves(cfg, s, b, m);
    MinedAgain(cfg, s, s1, b, |b.mined|, m', last);
    var s2 := AfterMined(cfg, s1, b, |b.mined|, m').0;
    assert Resolved(s2, b);
    ResolvedAgain(cfg, s2, b, |b.txs|, m');
    IndexOf(s2);
    ConsumedAgain(s2, b, |b.txs|);
  }

  lemma IndexOf(s: State)
    requires Inv(s)
    ensures NonceExact(s.txs, s.byNonce)
  {
  }
}
