/**
 Processing one block against the tracked lifecycles, as a specification on values: the transactions the
 scan found, then the tracked pending transactions the scan did not cover, then the consumed nonces.
 */
module Blocks {
  import opened Types
  import opened Tombstones
  import opened Lifecycle
  import opened Invariant
  import opened Effects

  datatype BlockTx = BlockTx(hash: Hash, sender: Address, nonce: nat)

  /** The transfer legs the scan found for one transaction of the block. */
  datatype MinedTx = MinedTx(hash: Hash, transfers: seq<Match>, failed: bool)

  /**
   A block together with what the node says about it: `mined` is the scan's result, `receipts` the revert
   status of its transactions, without the ones whose lookup fails.
   */
  datatype Block = Block(
    hash: Hash,
    number: nat,
    parent: Hash,
    txs: seq<BlockTx>,
    mined: seq<MinedTx>,
    receipts: map<Hash, bool>)

  /** What the dispatch goroutine adds: the block's depth, the finalized number and the time. */
  datatype Moment = Moment(confirmations: nat, finalized: nat, now: Time)

  predicate Scanned(b: Block, h: Hash) {
    exists i :: 0 <= i < |b.mined| && b.mined[i].hash == h
  }

  function AfterMined(cfg: Config, s: State, b: Block, n: nat, m: Moment): (State, seq<Event>)
    requires n <= |b.mined|
  {
    if n == 0 then (s, [])
    else
      var (s1, evs1) := AfterMined(cfg, s, b, n - 1, m);
      var tx := b.mined[n - 1];
      var (s2, evs2) := OnMined(cfg, s1, tx.hash, b.hash, b.number, tx.transfers, tx.failed, m.confirmations, m.finalized, m.now);
      (s2, evs1 + evs2)
  }

  /** A tracked pending transaction of the block that the scan did not cover. */
  function ResolveOne(cfg: Config, s: State, b: Block, h: Hash, m: Moment): (State, seq<Event>) {
    if Scanned(b, h) || h !in s.txs || s.txs[h].state.InBlock? || h !in b.receipts then (s, [])
    else OnMined(cfg, s, h, b.hash, b.number, [], b.receipts[h], m.confirmations, m.finalized, m.now)
  }

  function AfterResolved(cfg: Config, s: State, b: Block, n: nat, m: Moment): (State, seq<Event>)
    requires n <= |b.txs|
  {
    if n == 0 then (s, [])
    else
      var (s1, evs1) := AfterResolved(cfg, s, b, n - 1, m);
      var (s2, evs2) := ResolveOne(cfg, s1, b, b.txs[n - 1].hash, m);
      (s2, evs1 + evs2)
  }

  function AfterConsumed(s: State, b: Block, n: nat): (State, seq<Event>)
    requires n <= |b.txs|
  {
    if n == 0 then (s, [])
    else
      var (s1, evs1) := AfterConsumed(s, b, n - 1);
      var (s2, evs2) := OnNonceUsed(s1, b.txs[n - 1].sender, b.txs[n - 1].nonce, b.txs[n - 1].hash);
      (s2, evs1 + evs2)
  }

  function Process(cfg: Config, s: State, b: Block, m: Moment): (State, seq<Event>) {
    var (s1, evs1) := AfterMined(cfg, s, b, |b.mined|, m);
    var (s2, evs2) := AfterResolved(cfg, s1, b, |b.txs|, m);
    var (s3, evs3) := AfterConsumed(s2, b, |b.txs|);
    (s3, evs1 + evs2 + evs3)
  }

  /** What the scan guarantees: one entry per transaction, each with its own legs. */
  predicate WellScanned(b: Block) {
    && (forall i :: 0 <= i < |b.mined| ==> LegsOf(b.mined[i].transfers, b.mined[i].hash))
    && (forall i, j :: 0 <= i < j < |b.mined| ==> b.mined[i].hash != b.mined[j].hash)
  }

  // ---------------------------------------------------------------- one transaction through one input

  /** Inclusion touches no other transaction, and leaves none of its own pending. */
  lemma OnMinedIsolated(cfg: Config, s: State, hash: Hash, b: Block, transfers: seq<Match>, failed: bool, m: Moment)
    requires Inv(s) && LegsOf(transfers, hash)
    ensures var s' := OnMined(cfg, s, hash, b.hash, b.number, transfers, failed, m.confirmations, m.finalized, m.now).0;
            && Inv(s')
            && s.memory.last <= s'.memory.last <= s.memory.last + 1
            && !IsPending(s', hash)
            && (forall h :: h != hash ==> (h in s'.txs <==> h in s.txs) && (h in s.txs ==> s'.txs[h] == s.txs[h]))
            && (hash in s'.txs ==> s'.txs[hash].block == b.hash && (s'.txs[hash].blockNum == b.number || (hash in s.txs && s'.txs[hash] == s.txs[hash])))
  {
    OnMinedKeepsInv(cfg, s, hash, b.hash, b.number, transfers, failed, m.confirmations, m.finalized, m.now);
    IsolatedCore(cfg, s, hash, b, transfers, failed, m);
  }

  lemma JudgeIsolated(cfg: Config, s: State, hash: Hash, failed: bool, confirmations: nat, finalized: nat)
    requires Tombstones.Valid(s.memory) && hash in s.txs
    ensures var s' := Judge(cfg, s, hash, failed, confirmations, finalized).0;
            && s.memory.last <= s'.memory.last <= s.memory.last + 1
            && (s'.txs == s.txs || s'.txs == s.txs - {hash})
            && (!failed && s.txs[hash].authoritative ==> (hash in s'.txs || ConfirmedGrave(s', hash)))
  {
    hide Tombstones.Valid, Bury, Queue, QueueBury, Events;
    BuryRefines(s.memory, hash, Failed);
    BuryRefines(s.memory, hash, Confirmed);
    BuryRemembers(s.memory, hash, Confirmed);
  }

  lemma IntoBlockIsolated(s: State, hash: Hash, b: Block, transfers: seq<Match>, now: Time)
    ensures var s' := IntoBlock(s, hash, b.hash, b.number, transfers, now);
            && s'.memory == s.memory && hash in s'.txs && s'.txs[hash].state.InBlock?
            && s'.txs[hash].block == b.hash && s'.txs[hash].blockNum == b.number
            && (transfers != [] ==> s'.txs[hash].authoritative)
            && (forall h :: h != hash ==> (h in s'.txs <==> h in s.txs) && (h in s.txs ==> s'.txs[h] == s.txs[h]))
  {
    hide Unindex;
  }

  lemma IsolatedCore(cfg: Config, s: State, hash: Hash, b: Block, transfers: seq<Match>, failed: bool, m: Moment)
    requires Tombstones.Valid(s.memory) && Graves(s)
    ensures var s' := OnMined(cfg, s, hash, b.hash, b.number, transfers, failed, m.confirmations, m.finalized, m.now).0;
            && s.memory.last <= s'.memory.last <= s.memory.last + 1
            && !IsPending(s', hash)
            && (forall h :: h != hash ==> (h in s'.txs <==> h in s.txs) && (h in s.txs ==> s'.txs[h] == s.txs[h]))
            && (hash in s'.txs ==> s'.txs[hash].block == b.hash && (s'.txs[hash].blockNum == b.number || (hash in s.txs && s'.txs[hash] == s.txs[hash])))
  {
    hide Tombstones.Valid, Judge, IntoBlock, Queue, Without;
    ClearRefines(s.memory, hash);
    var s1 := Exhume(s, hash);
    IntoBlockIsolated(s1, hash, b, transfers, m.now);
    JudgeIsolated(cfg, IntoBlock(s1, hash, b.hash, b.number, transfers, m.now), hash, failed,
                  if m.confirmations == 0 then 1 else m.confirmations, m.finalized);
  }

  /** How the block has left one transaction its scan matched. */
  ghost predicate Settled(s: State, b: Block, tx: MinedTx) {
    || (IsMined(s, tx.hash) && s.txs[tx.hash].block == b.hash)
    || ConfirmedGrave(s, tx.hash)
    || (tx.hash !in s.txs && tx.transfers == [])
  }

  lemma OnMinedSettles(cfg: Config, s: State, b: Block, tx: MinedTx, m: Moment)
    requires Tombstones.Valid(s.memory) && !tx.failed
    ensures Settled(OnMined(cfg, s, tx.hash, b.hash, b.number, tx.transfers, false, m.confirmations, m.finalized, m.now).0, b, tx)
  {
    hide Tombstones.Valid, Judge, IntoBlock, Queue, Without;
    ClearRefines(s.memory, tx.hash);
    var s1 := Exhume(s, tx.hash);
    IntoBlockIsolated(s1, tx.hash, b, tx.transfers, m.now);
    JudgeIsolated(cfg, IntoBlock(s1, tx.hash, b.hash, b.number, tx.transfers, m.now), tx.hash, false,
                  if m.confirmations == 0 then 1 else m.confirmations, m.finalized);
  }

  // ---------------------------------------------------------------- every block keeps

  ghost predicate SamePlace(a: Tx, b: Tx) {
    a.state == b.state && a.block == b.block && a.blockNum == b.blockNum
  }

  /** Every transaction in a block was there before, or is in the block just processed. */
  ghost predicate PlacedBy(s: State, s': State, b: Block) {
    forall h :: IsMined(s', h) ==>
      || (IsMined(s, h) && SamePlace(s.txs[h], s'.txs[h]))
      || (s'.txs[h].block == b.hash && s'.txs[h].blockNum == b.number)
  }

  lemma {:induction false} AfterMinedKeeps(cfg: Config, s: State, b: Block, n: nat, m: Moment)
    requires Inv(s) && WellScanned(b) && n <= |b.mined|
    ensures var s' := AfterMined(cfg, s, b, n, m).0;
            && Inv(s') && s.memory.last <= s'.memory.last <= s.memory.last + n && PlacedBy(s, s', b)
            && (forall i :: 0 <= i < n ==> !IsPending(s', b.mined[i].hash))
            && (forall h :: !Scanned(b, h) ==> (h in s'.txs <==> h in s.txs) && (h in s.txs ==> s'.txs[h] == s.txs[h]))
  {
    hide Inv, OnMined;
    if n == 0 {
    } else {
      AfterMinedKeeps(cfg, s, b, n - 1, m);
      var tx := b.mined[n - 1];
      OnMinedIsolated(cfg, AfterMined(cfg, s, b, n - 1, m).0, tx.hash, b, tx.transfers, tx.failed, m);
    }
  }

  lemma {:induction false} AfterResolvedKeeps(cfg: Config, s: State, b: Block, n: nat, m: Moment)
    requires Inv(s) && n <= |b.txs|
    ensures var s' := AfterResolved(cfg, s, b, n, m).0;
            && Inv(s') && s.memory.last <= s'.memory.last && PlacedBy(s, s', b)
            && (forall h :: IsPending(s', h) ==> IsPending(s, h))
            && (forall h :: Scanned(b, h) ==> (h in s'.txs <==> h in s.txs) && (h in s.txs ==> s'.txs[h] == s.txs[h]))
            && (forall i :: 0 <= i < n && b.txs[i].hash in b.receipts && !Scanned(b, b.txs[i].hash) ==> !IsPending(s', b.txs[i].hash))
  {
    hide Inv, OnMined;
    if n == 0 {
    } else {
      AfterResolvedKeeps(cfg, s, b, n - 1, m);
      var s1, h := AfterResolved(cfg, s, b, n - 1, m).0, b.txs[n - 1].hash;
      if !Scanned(b, h) && IsPending(s1, h) && h in b.receipts {
        OnMinedIsolated(cfg, s1, h, b, [], b.receipts[h], m);
      }
    }
  }

  ghost predicate SlotFree(s: State, key: NonceKey, except: Hash) {
    forall h :: h in s.txs && h != except ==> !Occupies(s.txs[h], key)
  }

  lemma {:induction false} AfterConsumedKeeps(s: State, b: Block, n: nat)
    requires Inv(s) && n <= |b.txs|
    ensures var s' := AfterConsumed(s, b, n).0;
            && Inv(s') && s.memory.last <= s'.memory.last
            && (forall h :: h in s'.txs ==> h in s.txs && s'.txs[h] == s.txs[h])
            && (forall h :: IsMined(s, h) ==> IsMined(s', h))
            && (forall i :: 0 <= i < n ==> SlotFree(s', NonceKey(b.txs[i].sender, b.txs[i].nonce), b.txs[i].hash))
  {
    hide Inv;
    if n == 0 {
    } else {
      AfterConsumedKeeps(s, b, n - 1);
      var s1, tx := AfterConsumed(s, b, n - 1).0, b.txs[n - 1];
      ConsumeKeeps(s1, tx);
    }
  }

  lemma ConsumeKeeps(s: State, tx: BlockTx)
    requires Inv(s)
    ensures var s' := OnNonceUsed(s, tx.sender, tx.nonce, tx.hash).0;
            && Inv(s') && s.memory.last <= s'.memory.last
            && (forall h :: h in s'.txs ==> h in s.txs && s'.txs[h] == s.txs[h])
            && (forall h :: IsMined(s, h) ==> IsMined(s', h))
            && SlotFree(s', NonceKey(tx.sender, tx.nonce), tx.hash)
  {
    OnNonceUsedExact(s, tx.sender, tx.nonce, tx.hash);
    ReplaceAllKeepsInv(s, Occupants(s.byNonce, NonceKey(tx.sender, tx.nonce)), tx.hash);
    ReplaceAllAges(s, Occupants(s.byNonce, NonceKey(tx.sender, tx.nonce)), tx.hash, 0);
  }

  lemma ProcessKeeps(cfg: Config, s: State, b: Block, m: Moment)
    requires Inv(s) && WellScanned(b)
    ensures var s' := Process(cfg, s, b, m).0;
            Inv(s') && s.memory.last <= s'.memory.last && PlacedBy(s, s', b)
  {
    AfterMinedKeeps(cfg, s, b, |b.mined|, m);
    var s1 := AfterMined(cfg, s, b, |b.mined|, m).0;
    AfterResolvedKeeps(cfg, s1, b, |b.txs|, m);
    AfterConsumedKeeps(AfterResolved(cfg, s1, b, |b.txs|, m).0, b, |b.txs|);
  }

  // ---------------------------------------------------------------- block resolution

  /** Every transaction of the block the scan did not cover has a receipt. */
  ghost predicate ReceiptsComplete(b: Block) {
    forall i :: 0 <= i < |b.txs| ==> Scanned(b, b.txs[i].hash) || b.txs[i].hash in b.receipts
  }

  /**
   After a block no tracked pending transaction is in it, and none shares a nonce slot with any of its
   transactions.
   */
  lemma BlockResolves(cfg: Config, s: State, b: Block, m: Moment)
    requires Inv(s) && WellScanned(b) && ReceiptsComplete(b)
    ensures var s' := Process(cfg, s, b, m).0;
            forall i, h :: 0 <= i < |b.txs| && IsPending(s', h) ==>
              h != b.txs[i].hash && !Occupies(s'.txs[h], NonceKey(b.txs[i].sender, b.txs[i].nonce))
  {
    hide Inv, AfterMined, AfterResolved, AfterConsumed;
    AfterMinedKeeps(cfg, s, b, |b.mined|, m);
    var s1 := AfterMined(cfg, s, b, |b.mined|, m).0;
    AfterResolvedKeeps(cfg, s1, b, |b.txs|, m);
    var s2 := AfterResolved(cfg, s1, b, |b.txs|, m).0;
    AfterConsumedKeeps(s2, b, |b.txs|);
    var s' := AfterConsumed(s2, b, |b.txs|).0;
    forall i, h | 0 <= i < |b.txs| && IsPending(s', h)
      ensures h != b.txs[i].hash && !Occupies(s'.txs[h], NonceKey(b.txs[i].sender, b.txs[i].nonce))
    {
      assert IsPending(s2, h) && IsPending(s1, h);
      assert SlotFree(s', NonceKey(b.txs[i].sender, b.txs[i].nonce), b.txs[i].hash);
    }
  }
}
