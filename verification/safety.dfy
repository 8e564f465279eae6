/** Confirmation safety of single inputs and whole blocks: no `confirmed` event below the threshold. */
module Safety {
  import opened Types
  import opened Lifecycle
  import opened Effects
  import opened Blocks

  /** A block counts as its own first confirmation. */
  function Counted(confirmations: nat): nat {
    if confirmations == 0 then 1 else confirmations
  }

  /**
   A `confirmed` event reports `depth`, and it is due: in tag mode its block is at or below a known finalized
   number, otherwise it is at least as deep as configured.
   */
  predicate SafeEvent(cfg: Config, e: Event, depth: nat, finalized: nat) {
    e.typ == Confirmed ==>
      && e.confirmations == depth
      && (cfg.tagMode ==> 0 < finalized && e.blockNumber <= finalized)
      && (!cfg.tagMode ==> e.confirmations >= cfg.depth)
  }

  ghost predicate Safe(cfg: Config, evs: seq<Event>, depth: nat, finalized: nat) {
    forall i :: 0 <= i < |evs| ==> SafeEvent(cfg, evs[i], depth, finalized)
  }

  /** Every event is about the block. */
  ghost predicate AllIn(evs: seq<Event>, block: Hash, blockNum: nat) {
    forall i :: 0 <= i < |evs| ==> evs[i].blockHash == block && evs[i].blockNumber == blockNum
  }

  ghost predicate NoneConfirmed(evs: seq<Event>) {
    forall i :: 0 <= i < |evs| ==> evs[i].typ != Confirmed
  }

  lemma OnMinedSafe(cfg: Config, s: State, hash: Hash, block: Hash, blockNum: nat, transfers: seq<Match>,
                    failed: bool, confirmations: nat, finalized: nat, now: Time)
    ensures var (s', evs) := OnMined(cfg, s, hash, block, blockNum, transfers, failed, confirmations, finalized, now);
            && Safe(cfg, evs, Counted(confirmations), finalized) && AllIn(evs, block, blockNum)
            && forall i :: 0 <= i < |evs| ==> evs[i].confirmations == Counted(confirmations)
  {
    hide Settle, Unindex;
  }

  lemma {:induction false} ReplaceAllConfirmsNothing(s: State, occupants: seq<Hash>, winner: Hash)
    ensures NoneConfirmed(ReplaceAll(s, occupants, winner).1)
  {
    hide Settle, Unindex;
    if occupants != [] {
      ReplaceAllConfirmsNothing(s, occupants[..|occupants| - 1], winner);
    }
  }

  lemma {:induction false} AfterMinedSafe(cfg: Config, s: State, b: Block, n: nat, m: Moment)
    requires n <= |b.mined|
    ensures var evs := AfterMined(cfg, s, b, n, m).1; Safe(cfg, evs, Counted(m.confirmations), m.finalized) && AllIn(evs, b.hash, b.number)
  {
    hide OnMined, SafeEvent, Counted;
    if n > 0 {
      AfterMinedSafe(cfg, s, b, n - 1, m);
      var tx := b.mined[n - 1];
      OnMinedSafe(cfg, AfterMined(cfg, s, b, n - 1, m).0, tx.hash, b.hash, b.number, tx.transfers, tx.failed,
                  m.confirmations, m.finalized, m.now);
    }
  }

  lemma {:induction false} AfterResolvedSafe(cfg: Config, s: State, b: Block, n: nat, m: Moment)
    requires n <= |b.txs|
    ensures var evs := AfterResolved(cfg, s, b, n, m).1; Safe(cfg, evs, Counted(m.confirmations), m.finalized) && AllIn(evs, b.hash, b.number)
  {
    hide OnMined, SafeEvent, Counted;
    if n > 0 {
      AfterResolvedSafe(cfg, s, b, n - 1, m);
      var s1, h := AfterResolved(cfg, s, b, n - 1, m).0, b.txs[n - 1].hash;
      if h in b.receipts {
        OnMinedSafe(cfg, s1, h, b.hash, b.number, [], b.receipts[h], m.confirmations, m.finalized, m.now);
      }
    }
  }

  lemma {:induction false} AfterConsumedSafe(s: State, b: Block, n: nat)
    requires n <= |b.txs|
    ensures NoneConfirmed(AfterConsumed(s, b, n).1)
  {
    hide ReplaceAll;
    if n > 0 {
      AfterConsumedSafe(s, b, n - 1);
      var s1, tx := AfterConsumed(s, b, n - 1).0, b.txs[n - 1];
      ReplaceAllConfirmsNothing(s1, Occupants(s1.byNonce, NonceKey(tx.sender, tx.nonce)), tx.hash);
    }
  }

  /** A block's confirmed events are about the block, at the depth it was given. */
  lemma ProcessSafe(cfg: Config, s: State, b: Block, m: Moment)
    ensures var evs := Process(cfg, s, b, m).1;
            && Safe(cfg, evs, Counted(m.confirmations), m.finalized)
            && forall i :: 0 <= i < |evs| && evs[i].typ == Confirmed ==> evs[i].blockHash == b.hash && evs[i].blockNumber == b.number
  {
    hide AfterMined, AfterResolved, AfterConsumed;
    AfterMinedSafe(cfg, s, b, |b.mined|, m);
    var s1 := AfterMined(cfg, s, b, |b.mined|, m).0;
    AfterResolvedSafe(cfg, s1, b, |b.txs|, m);
    AfterConsumedSafe(AfterResolved(cfg, s1, b, |b.txs|, m).0, b, |b.txs|);
  }

  lemma {:induction false} OnReorgConfirmsNothing(s: State, ancestor: nat, order: seq<Hash>, now: Time)
    ensures NoneConfirmed(OnReorg(s, ancestor, order, now).1)
  {
    hide Index;
    if order != [] {
      OnReorgConfirmsNothing(s, ancestor, order[..|order| - 1], now);
    }
  }
}
