/**
 What an event says: each transition reports every leg of its transaction exactly once, in order, together
 with the transaction's position at that moment.
 */
module Reports {
  import opened Types
  import Tombstones
  import opened Lifecycle
  import opened Invariant
  import opened Effects

  /** The transaction as a mined discovery leaves it, before the verdict. */
  function AsIncluded(s: State, i: Input): Tx
    requires i.FoundMined?
  {
    Included(Discovered(Exhume(s, i.hash), i.hash, i.now), i.block, i.blockNum, i.transfers, i.now)
  }

  function Depth(i: Input): nat
    requires i.FoundMined?
  {
    if i.confirmations == 0 then 1 else i.confirmations
  }

  /** The events of one transaction in one step, from the states around it and the input. */
  ghost predicate Told(cfg: Config, s: State, s': State, i: Input, h: Hash, own: seq<Event>)
    requires own != []
  {
    match own[0].typ
    case Pending => i.SeenPending? && h in s'.txs && own == Events(s'.txs[h], Pending, 0) && s'.txs[h].transfers == i.matches
    case Mined => i.FoundMined? && h in s'.txs && own == Events(s'.txs[h], Mined, Depth(i)) && s'.txs[h] == AsIncluded(s, i)
    case Failed => i.FoundMined? && i.failed && h == i.hash && own == Events(AsIncluded(s, i), Failed, Depth(i))
    case Confirmed =>
      || (i.FoundMined? && !i.failed && h == i.hash && own == Events(AsIncluded(s, i), Confirmed, Depth(i))
          && (cfg.tagMode ==> 0 < i.finalized && i.blockNum <= i.finalized) && (!cfg.tagMode ==> Depth(i) >= cfg.depth))
      || (i.Verified? && h == i.hash && IsMined(s, h) && s.txs[h].blockNum <= i.headNumber
          && own == Events(s.txs[h], Confirmed, i.headNumber - s.txs[h].blockNum + 1))
    case Reorged =>
      && IsMined(s, h) && ((i.Demoted? && h == i.hash) || (i.ForkedAt? && s.txs[h].blockNum > i.ancestor))
      && own == Events(s.txs[h], Reorged, 0)
    case Dropped =>
      && i.Rechecked? && !i.stillKnown && h == i.hash && IsPending(s, h)
      && own == Events(s.txs[h], Dropped, 0)
    case Replaced =>
      && i.NonceUsed? && IsPending(s, h) && h != i.winner && Slot(s.txs[h]) == NonceKey(i.sender, i.nonce)
      && own == ReplacedEvents(s.txs[h], i.winner)
  }

  ghost predicate Tells(cfg: Config, s: State, i: Input, h: Hash) {
    var (s', evs) := Step(cfg, s, i);
    EventsFor(evs, h) != [] ==> Told(cfg, s, s', i, h, EventsFor(evs, h))
  }

  lemma PendingTells(cfg: Config, s: State, i: Input, h: Hash)
    requires i.SeenPending? && WellFormed(s, i)
    ensures Tells(cfg, s, i, h)
  {
    hide EventsFor;
    NoEvents(h);
    var s' := Step(cfg, s, i).0;
    if i.matches != [] && i.matches[0].txHash in s'.txs && LegsOf(s'.txs[i.matches[0].txHash].transfers, s'.txs[i.matches[0].txHash].hash) {
      OwnEvents(s'.txs[i.matches[0].txHash], Pending, 0, 0, h);
    }
  }

  lemma MinedTells(cfg: Config, s: State, i: Input, h: Hash)
    requires i.FoundMined? && Inv(s) && WellFormed(s, i)
    ensures Tells(cfg, s, i, h)
  {
    hide EventsFor, Tombstones.Bury, Tombstones.Clear, Unindex, Inv, Events;
    NoEvents(h);
    var tx := AsIncluded(s, i);
    IncludedLegs(s, i);
    OwnEvents(tx, Failed, Depth(i), 0, h);
    OwnEvents(tx, Confirmed, Depth(i), 0, h);
    OwnEvents(tx, Mined, Depth(i), 0, h);
    EventsUniform(tx, Failed, Depth(i));
    EventsUniform(tx, Confirmed, Depth(i));
    EventsUniform(tx, Mined, Depth(i));
  }

  lemma IncludedLegs(s: State, i: Input)
    requires i.FoundMined? && Inv(s) && WellFormed(s, i)
    ensures LegsOf(AsIncluded(s, i).transfers, AsIncluded(s, i).hash) && AsIncluded(s, i).hash == i.hash
  {
    hide NonceExact, Tombstones.Valid, Graves, Tombstones.Clear;
    if i.hash in s.txs { assert TxOk(i.hash, s.txs[i.hash]); }
  }

  lemma VerifiedTells(cfg: Config, s: State, i: Input, h: Hash)
    requires i.Verified? && Inv(s)
    ensures Tells(cfg, s, i, h)
  {
    hide EventsFor, Tombstones.Bury, Inv;
    NoEvents(h);
    if IsMined(s, i.hash) && s.txs[i.hash].blockNum <= i.headNumber {
      TxFacts(s, i.hash);
      OwnEvents(s.txs[i.hash], Confirmed, i.headNumber - s.txs[i.hash].blockNum + 1, 0, h);
    }
  }

  lemma RecheckedTells(cfg: Config, s: State, i: Input, h: Hash)
    requires i.Rechecked? && Inv(s)
    ensures Tells(cfg, s, i, h)
  {
    hide EventsFor, Tombstones.Bury, Inv, Unindex;
    NoEvents(h);
    if IsPending(s, i.hash) {
      TxFacts(s, i.hash);
      OwnEvents(s.txs[i.hash], Dropped, 0, 0, h);
    }
  }

  lemma DemotedTells(cfg: Config, s: State, i: Input, h: Hash)
    requires i.Demoted? && Inv(s)
    ensures Tells(cfg, s, i, h)
  {
    hide EventsFor, Inv, Index;
    NoEvents(h);
    if IsMined(s, i.hash) {
      TxFacts(s, i.hash);
      OwnEvents(s.txs[i.hash], Reorged, 0, 0, h);
    }
  }

  /** Every input: an event is emitted once per leg, with the block the transaction is in, or was in before. */
  lemma StepTells(cfg: Config, s: State, i: Input, h: Hash)
    requires Inv(s) && WellFormed(s, i)
    ensures Tells(cfg, s, i, h)
  {
    hide Inv, EventsFor, Told;
    match i
    case SeenPending(_, _) => PendingTells(cfg, s, i, h);
    case FoundMined(_, _, _, _, _, _, _, _) => MinedTells(cfg, s, i, h);
    case Verified(_, _) => VerifiedTells(cfg, s, i, h);
    case Rechecked(_, _, _) => RecheckedTells(cfg, s, i, h);
    case NonceUsed(_, _, _) => NonceTells(cfg, s, i, h);
    case ForkedAt(_, _, _) => ForkTells(cfg, s, i, h);
    case Demoted(_, _) => DemotedTells(cfg, s, i, h);
  }

  lemma NonceTells(cfg: Config, s: State, i: Input, h: Hash)
    requires i.NonceUsed? && Inv(s)
    ensures Tells(cfg, s, i, h)
  {
    hide EventsFor, OnNonceUsed;
    OnNonceUsedExact(s, i.sender, i.nonce, i.winner);
  }

  lemma ForkTells(cfg: Config, s: State, i: Input, h: Hash)
    requires i.ForkedAt? && Inv(s) && WellFormed(s, i)
    ensures Tells(cfg, s, i, h)
  {
    hide EventsFor, OnReorg;
    OnReorgExact(s, i.ancestor, i.order, i.now);
  }
}
