/**
 The tracker as the source writes it: an object whose methods update its maps, its FIFO and the fields
 of the tracked transactions in place. Every method is proved to refine its function in `Lifecycle`, so
 the theorems of `Invariant`, `Effects` and `Grammar` are theorems about this class: what they say of
 `Lifecycle.Step` holds of `View()` before and after a call.

 The injected clock is the `now` argument of the methods that read it.
 */
module Tracking {
  import opened Types
  import opened Tombstones
  import opened Lifecycle
  import Invariant
  import Effects
  import Storage

  /** Cuts the first occurrence of `hash` out of a slot list. */
  method CutFirst(hashes: seq<Hash>, hash: Hash) returns (rest: seq<Hash>)
    ensures rest == RemoveFirst(hashes, hash)
  {
    var i := 0;
    while i < |hashes|
      invariant 0 <= i <= |hashes|
      invariant RemoveFirst(hashes, hash) == hashes[..i] + RemoveFirst(hashes[i..], hash)
    {
      assert hashes[i..] == [hashes[i]] + hashes[i + 1..];
      if hashes[i] == hash {
        return hashes[..i] + hashes[i + 1..];
      }
      assert hashes[..i + 1] == hashes[..i] + [hashes[i]];
      i := i + 1;
    }
    return hashes;
  }

  function Natives(legs: seq<Match>): seq<Match> {
    if legs == [] then []
    else Natives(legs[..|legs| - 1]) + if legs[|legs| - 1].token.None? then [legs[|legs| - 1]] else []
  }

  /** Leg by leg, in order: a native one is kept, a token's is not. */
  lemma {:induction false} NativesMean(a: seq<Match>, b: seq<Match>, leg: Match)
    ensures Natives(a + b) == Natives(a) + Natives(b)
    ensures Natives([leg]) == if leg.token.None? then [leg] else []
  {
    if b == [] {
      assert a + b == a;
    } else {
      NativesMean(a, b[..|b| - 1], leg);
      assert (a + b)[..|a + b| - 1] == a + b[..|b| - 1];
    }
  }

  // ---------------------------------------------------------------- persistence snapshots

  function ExportedLeg(m: Match): Storage.Transfer {
    Storage.Transfer(Storage.Leg(m.from, m.to, m.direction, m.asset, m.token, m.decimals, m.value), m.logIndex, m.txSender, m.txNonce)
  }

  function ExportedLegs(legs: seq<Match>): seq<Storage.Transfer> {
    seq(|legs|, i requires 0 <= i < |legs| => ExportedLeg(legs[i]))
  }

  /** The transaction as it is stored. */
  function Exported(tx: Tx): Storage.StoredTx {
    Storage.StoredTx(tx.hash,
      Storage.Head(if tx.state.InBlock? then Mined else Pending, if tx.state.InBlock? then tx.block else ZERO_HASH,
                   tx.blockNum, tx.firstSeen, tx.firstSeenBlock, tx.minedAt, tx.pendingSince,
                   tx.sender, tx.nonce, tx.hasNonce, tx.authoritative, None),
      ExportedLegs(tx.transfers))
  }

  /** The stored form repeats every field of the transaction and of its legs in the column of its name. */
  lemma ExportedMeans(tx: Tx, i: nat)
    ensures var x := Exported(tx);
            && x.hash == tx.hash && |x.transfers| == |tx.transfers|
            && (x.head.status.Mined? <==> tx.state == InBlock) && (x.head.status.Pending? <==> tx.state == InMempool)
            && (tx.state == InBlock ==> x.head.block == tx.block) && (tx.state == InMempool ==> x.head.block == ZERO_HASH)
            && x.head.blockNum == tx.blockNum && x.head.firstSeen == tx.firstSeen && x.head.firstSeenBlock == tx.firstSeenBlock
            && x.head.minedAt == tx.minedAt && x.head.pendingSince == tx.pendingSince && x.head.sender == tx.sender
            && x.head.nonce == tx.nonce && x.head.hasNonce == tx.hasNonce && x.head.authoritative == tx.authoritative
            && x.head.replacedBy == None
    ensures i < |tx.transfers| ==>
      var t, leg := Exported(tx).transfers[i], tx.transfers[i];
      && t.logIndex == leg.logIndex && t.txSender == leg.txSender && t.txNonce == leg.txNonce
      && t.leg.from == leg.from && t.leg.to == leg.to && t.leg.direction == leg.direction && t.leg.asset == leg.asset
      && t.leg.token == leg.token && t.leg.decimals == leg.decimals && t.leg.value == leg.value
  {
  }

  function ImportedLeg(hash: Hash, t: Storage.Transfer): Match {
    Match(hash, t.leg.from, t.leg.to, t.leg.direction, t.leg.asset, t.leg.token, t.leg.decimals, t.leg.value, t.logIndex,
          t.txSender, t.txNonce)
  }

  function ImportedLegs(hash: Hash, legs: seq<Storage.Transfer>): seq<Match> {
    seq(|legs|, i requires 0 <= i < |legs| => ImportedLeg(hash, legs[i]))
  }

  /** The transaction a stored one is restored as. */
  function Imported(stx: Storage.StoredTx): Tx {
    Tx(stx.hash, ImportedLegs(stx.hash, stx.transfers), stx.head.authoritative,
       if stx.head.status.Mined? then InBlock else InMempool, stx.head.block, stx.head.blockNum, stx.head.firstSeen,
       stx.head.firstSeenBlock, stx.head.minedAt, stx.head.pendingSince, stx.head.sender, stx.head.nonce, stx.head.hasNonce)
  }

  function ImportOne(s: State, stx: Storage.StoredTx): State {
    if !Storage.Active(stx.head.status) then s
    else
      var tx := Imported(stx);
      s.(txs := s.txs[tx.hash := tx], byNonce := if tx.state.InMempool? then Index(s.byNonce, tx) else s.byNonce)
  }

  function ImportAll(s: State, txs: seq<Storage.StoredTx>): State {
    if txs == [] then s else ImportOne(ImportAll(s, txs[..|txs| - 1]), txs[|txs| - 1])
  }

  class TrackedTx {
    const hash: Hash
    var transfers: seq<Match>
    var authoritative: bool
    var state: TxState
    var block: Hash
    var blockNum: nat
    const firstSeen: Time
    var firstSeenBlock: nat
    var minedAt: Time
    var pendingSince: Time
    const sender: Address
    const nonce: nat
    const hasNonce: bool

    constructor (tx: Tx)
      ensures Snapshot() == tx
    {
      hash, transfers, authoritative, state := tx.hash, tx.transfers, tx.authoritative, tx.state;
      block, blockNum := tx.block, tx.blockNum;
      firstSeen, firstSeenBlock, minedAt, pendingSince := tx.firstSeen, tx.firstSeenBlock, tx.minedAt, tx.pendingSince;
      sender, nonce, hasNonce := tx.sender, tx.nonce, tx.hasNonce;
    }

    function Snapshot(): Tx
      reads this
    {
      Tx(hash, transfers, authoritative, state, block, blockNum, firstSeen, firstSeenBlock, minedAt, pendingSince,
         sender, nonce, hasNonce)
    }

    method EnterBlock(blockHash: Hash, number: nat, legs: seq<Match>, now: Time)
      modifies this
      ensures Snapshot() == Included(old(Snapshot()), blockHash, number, legs, now)
    {
      if firstSeenBlock == 0 {
        firstSeenBlock := number;
        minedAt := now;
      }
      if |legs| > 0 {
        transfers := legs;
        authoritative := true;
      }
      state := InBlock;
      block := blockHash;
      blockNum := number;
    }
  }

  class Tracker {
    const cfg: Config
    var txs: map<Hash, TrackedTx>
    var byNonce: map<NonceKey, seq<Hash>>
    var tombstones: map<Hash, Tombstone>
    var tombstoneFIFO: seq<Ref>
    var tombstoneSeq: nat

    ghost function Graveyard(): Memory
      reads this
    {
      Memory(tombstones, tombstoneFIFO, tombstoneSeq)
    }

    ghost function Txs(): map<Hash, Tx>
      reads `txs, txs.Values
    {
      map h | h in txs :: txs[h].Snapshot()
    }

    /** The abstract state. */
    ghost function View(): State
      reads this, txs.Values
    {
      State(Txs(), byNonce, Graveyard())
    }

    /** Entries are filed under their own hash, so no two entries share an object. */
    ghost predicate Valid()
      reads `txs, txs.Values
    {
      forall h :: h in txs ==> txs[h].hash == h
    }

    constructor (cfg: Config)
      ensures Valid() && View() == FRESH && txs == map[] && this.cfg == cfg
    {
      this.cfg := cfg;
      txs, byNonce, tombstones, tombstoneFIFO, tombstoneSeq := map[], map[], map[], [], 0;
    }

    // -------------------------------------------------------------- internal updates

    method Bury(hash: Hash, typ: EventType)
      modifies this`tombstones, this`tombstoneFIFO, this`tombstoneSeq
      ensures Graveyard() == Tombstones.Bury(old(Graveyard()), hash, typ)
    {
      tombstoneSeq := tombstoneSeq + 1;
      tombstones := tombstones[hash := Tombstone(typ, tombstoneSeq)];
      tombstoneFIFO := tombstoneFIFO + [Ref(hash, tombstoneSeq)];
      EvictOldest();
      CompactFIFO();
    }

    /** Drops FIFO entries, live or dead, until the map fits. */
    method EvictOldest()
      modifies this`tombstones, this`tombstoneFIFO
      ensures Graveyard() == Evict(old(Graveyard()))
    {
      ghost var inserted := Graveyard();
      while |tombstones| > CAP && |tombstoneFIFO| > 0
        invariant Evict(Graveyard()) == Evict(inserted)
        decreases |tombstoneFIFO|
      {
        var ref := tombstoneFIFO[0];
        tombstoneFIFO := tombstoneFIFO[1..];
        if ref.hash in tombstones && tombstones[ref.hash].seqNo == ref.seqNo {
          tombstones := tombstones - {ref.hash};
        }
      }
    }

    /** Reclaims dead entries in place once the FIFO is twice the cap. */
    method CompactFIFO()
      modifies this`tombstoneFIFO
      ensures Graveyard() == Compact(old(Graveyard()))
    {
      if |tombstoneFIFO| > 2 * CAP {
        var buf := new Ref[|tombstoneFIFO|](i requires 0 <= i < |tombstoneFIFO| reads this => tombstoneFIFO[i]);
        assert buf[..] == tombstoneFIFO;
        var k := CompactInPlace(buf, tombstones);
        tombstoneFIFO := buf[..k];
      }
    }

    method IndexNonce(tx: TrackedTx)
      modifies this`byNonce
      ensures byNonce == Index(old(byNonce), tx.Snapshot())
    {
      if !tx.hasNonce { return; }
      var key := NonceKey(tx.sender, tx.nonce);
      byNonce := byNonce[key := (if key in byNonce then byNonce[key] else []) + [tx.hash]];
    }

    method UnindexNonce(tx: TrackedTx)
      modifies this`byNonce
      ensures byNonce == Unindex(old(byNonce), tx.Snapshot())
    {
      if !tx.hasNonce { return; }
      var key := NonceKey(tx.sender, tx.nonce);
      var hashes := CutFirst(if key in byNonce then byNonce[key] else [], tx.hash);
      byNonce := if |hashes| == 0 then byNonce - {key} else byNonce[key := hashes];
    }

    // -------------------------------------------------------------- inputs

    /** Records a transaction seen in the mempool. */
    method OnPending(matches: seq<Match>, now: Time) returns (evs: seq<Event>)
      requires Valid()
      modifies this, txs.Values
      ensures Valid() && fresh(txs.Values - old(txs.Values))
      ensures (View(), evs) == Lifecycle.OnPending(old(View()), matches, now)
    {
      if |matches| == 0 { return []; }
      var hash := matches[0].txHash;
      if hash in txs { return []; }
      if hash in tombstones && tombstones[hash].typ != Dropped { return []; }
      var tx := new TrackedTx(Tx(hash, matches, false, InMempool, ZERO_HASH, 0, now, 0, NO_TIME, now,
                                 matches[0].txSender, matches[0].txNonce, true));
      txs := txs[hash := tx];
      IndexNonce(tx);
      evs := Events(tx.Snapshot(), Pending, 0);
      assert Txs() == old(Txs())[hash := tx.Snapshot()];
    }

    /** Records a transaction found in a canonical block. */
    method OnMined(hash: Hash, blockHash: Hash, blockNum: nat, transfers: seq<Match>, failed: bool,
                   confirmations: nat, finalized: nat, now: Time) returns (evs: seq<Event>)
      requires Valid()
      modifies this, txs.Values
      ensures Valid() && fresh(txs.Values - old(txs.Values))
      ensures (View(), evs)
           == Lifecycle.OnMined(cfg, old(View()), hash, blockHash, blockNum, transfers, failed, confirmations, finalized, now)
    {
      if hash in tombstones {
        if tombstones[hash].typ == Confirmed { return []; }
        tombstones := tombstones - {hash};
      }
      ghost var s1 := Exhume(old(View()), hash);
      assert View().txs == s1.txs;
      if hash in txs && txs[hash].state.InBlock? && txs[hash].block == blockHash { return []; }
      EnterBlock(hash, blockHash, blockNum, transfers, now);
      assert View() == IntoBlock(s1, hash, blockHash, blockNum, transfers, now);
      assert hash in Txs();
      evs := Verdict(hash, failed, if confirmations == 0 then 1 else confirmations, finalized);
    }

    /** First half of `OnMined`: the transaction's fields move into the block. */
    method EnterBlock(hash: Hash, blockHash: Hash, blockNum: nat, transfers: seq<Match>, now: Time)
      requires Valid()
      modifies this, txs.Values
      ensures Valid() && fresh(txs.Values - old(txs.Values))
      ensures View() == IntoBlock(old(View()), hash, blockHash, blockNum, transfers, now)
    {
      hide IntoBlock, Included, Unindex, Discovered;
      ghost var s0, before := View(), Discovered(View(), hash, now);
      var tx := Find(hash, now);
      assert tx.Snapshot() == before by { assert Txs()[hash] == before; }
      if tx.state.InMempool? {
        UnindexNonce(tx);
      }
      MoveIntoBlock(hash, blockHash, blockNum, transfers, now);
      IntoBlockParts(s0, View(), hash, blockHash, blockNum, transfers, now);
    }

    method MoveIntoBlock(hash: Hash, blockHash: Hash, blockNum: nat, transfers: seq<Match>, now: Time)
      requires Valid() && hash in txs
      modifies txs[hash]
      ensures Valid()
      ensures Txs() == old(Txs())[hash := Included(old(Txs())[hash], blockHash, blockNum, transfers, now)]
    {
      txs[hash].EnterBlock(blockHash, blockNum, transfers, now);
    }

    /** The tracked transaction, or a blank one that is tracked from now on. */
    method Find(hash: Hash, now: Time) returns (tx: TrackedTx)
      requires Valid()
      modifies this`txs
      ensures Valid() && fresh(txs.Values - old(txs.Values))
      ensures hash in txs && txs[hash] == tx
      ensures Txs() == old(Txs())[hash := Discovered(old(View()), hash, now)]
    {
      if hash !in txs {
        var blank := new TrackedTx(Tx(hash, [], false, InMempool, ZERO_HASH, 0, now, 0, NO_TIME, now, 0, 0, false));
        txs := txs[hash := blank];
      }
      tx := txs[hash];
    }

    /** Second half of `OnMined`: fail, forget, confirm at once, or keep as mined. */
    method Verdict(hash: Hash, failed: bool, confirmations: nat, finalized: nat) returns (evs: seq<Event>)
      requires Valid() && hash in txs
      modifies this
      ensures Valid() && txs.Values <= old(txs.Values)
      ensures (View(), evs) == Judge(cfg, old(View()), hash, failed, confirmations, finalized)
    {
      var tx := txs[hash];
      if failed {
        evs := Events(tx.Snapshot(), Failed, confirmations);
        Forget(hash, Failed);
      } else if !tx.authoritative {
        evs := [];
        Forget(hash, Failed);
      } else if ConfirmedAt(cfg, tx.blockNum, confirmations, finalized) {
        evs := Events(tx.Snapshot(), Confirmed, confirmations);
        Forget(hash, Confirmed);
      } else {
        evs := Events(tx.Snapshot(), Mined, confirmations);
      }
    }

    method Forget(hash: Hash, typ: EventType)
      requires Valid()
      modifies this
      ensures Valid() && txs.Values <= old(txs.Values)
      ensures View() == Settle(old(View()), hash, typ)
    {
      hide Tombstones.Bury;
      txs := txs - {hash};
      assert Txs() == old(Txs()) - {hash};
      Bury(hash, typ);
    }

    /** Finalizes a mined transaction whose inclusion the caller has just re-verified. */
    method Confirm(hash: Hash, headNumber: nat) returns (evs: seq<Event>)
      requires Valid()
      modifies this
      ensures Valid() && txs.Values <= old(txs.Values)
      ensures (View(), evs) == Lifecycle.Confirm(old(View()), hash, headNumber)
    {
      if hash !in txs || txs[hash].state != InBlock || headNumber < txs[hash].blockNum { return []; }
      evs := Events(txs[hash].Snapshot(), Confirmed, headNumber - txs[hash].blockNum + 1);
      Forget(hash, Confirmed);
    }

    /** Resolves a stale-pending recheck: drop it, or reset its timer. */
    method OnDropStale(hash: Hash, stillKnown: bool, now: Time) returns (evs: seq<Event>)
      requires Valid()
      modifies this, txs.Values
      ensures Valid() && txs.Values <= old(txs.Values)
      ensures (View(), evs) == Lifecycle.OnDropStale(old(View()), hash, stillKnown, now)
    {
      if hash !in txs || txs[hash].state != InMempool { return []; }
      var tx := txs[hash];
      if stillKnown {
        tx.pendingSince := now;
        assert Txs() == old(Txs())[hash := tx.Snapshot()];
        return [];
      }
      evs := Events(tx.Snapshot(), Dropped, 0);
      UnindexNonce(tx);
      assert View() == old(View()).(byNonce := byNonce);
      Forget(hash, Dropped);
    }

    /** Replaces every other pending occupant of a consumed nonce slot. */
    method OnNonceUsed(sender: Address, nonce: nat, byHash: Hash) returns (evs: seq<Event>)
      requires Valid()
      modifies this
      ensures Valid() && txs.Values <= old(txs.Values)
      ensures (View(), evs) == Lifecycle.OnNonceUsed(old(View()), sender, nonce, byHash)
    {
      evs := [];
      var key := NonceKey(sender, nonce);
      // A copy: the slot's list shrinks while we walk it.
      var occupants := if key in byNonce then byNonce[key] else [];
      ghost var s0 := View();
      var i := 0;
      while i < |occupants|
        invariant 0 <= i <= |occupants|
        invariant Valid() && txs.Values <= old(txs.Values)
        invariant (View(), evs) == ReplaceAll(s0, occupants[..i], byHash)
      {
        assert occupants[..i + 1][..i] == occupants[..i];
        var replaced := Replace(occupants[i], byHash);
        evs := evs + replaced;
        i := i + 1;
      }
      assert occupants[..i] == occupants;
    }

    method Replace(hash: Hash, byHash: Hash) returns (replaced: seq<Event>)
      requires Valid()
      modifies this
      ensures Valid() && txs.Values <= old(txs.Values)
      ensures (View(), replaced) == ReplaceOne(old(View()), hash, byHash)
    {
      if hash == byHash || hash !in txs || txs[hash].state != InMempool { return []; }
      var tx := txs[hash];
      replaced := ReplacedEvents(tx.Snapshot(), byHash);
      UnindexNonce(tx);
      assert View() == old(View()).(byNonce := byNonce);
      Forget(hash, Replaced);
    }

    /**
     Demotes every transaction mined above the ancestor. The map is walked in an arbitrary order, reported
     as `order`; the demoted set and each transaction's events do not depend on it (`Effects.OnReorgExact`).
     */
    method OnReorg(ancestorNumber: nat, now: Time) returns (evs: seq<Event>, ghost order: seq<Hash>)
      requires Valid()
      modifies this, txs.Values
      ensures Valid() && txs.Values == old(txs.Values)
      ensures Enumerates(order, old(View()).txs.Keys)
      ensures (View(), evs) == Lifecycle.OnReorg(old(View()), ancestorNumber, order, now)
    {
      evs := [];
      order := [];
      ghost var s0 := View();
      var unvisited := txs.Keys;
      while unvisited != {}
        invariant Valid() && txs == old(txs)
        invariant unvisited <= txs.Keys
        invariant forall h :: h in order <==> h in txs && h !in unvisited
        invariant Invariant.NoDup(order)
        invariant (View(), evs) == Lifecycle.OnReorg(s0, ancestorNumber, order, now)
        decreases unvisited
      {
        var hash :| hash in unvisited;
        assert (order + [hash])[..|order|] == order;
        var reorged := RevertAbove(hash, ancestorNumber, now);
        evs := evs + reorged;
        order := order + [hash];
        unvisited := unvisited - {hash};
      }
    }

    method RevertAbove(hash: Hash, ancestorNumber: nat, now: Time) returns (evs: seq<Event>)
      requires Valid() && hash in txs
      modifies this`byNonce, txs[hash]
      ensures Valid() && txs == old(txs)
      ensures (View(), evs) == ReorgOne(old(View()), hash, ancestorNumber, now)
    {
      if txs[hash].state != InBlock || txs[hash].blockNum <= ancestorNumber { return []; }
      evs := BackToPending(hash, now);
    }

    /** Moves one mined transaction back to pending. */
    method Demote(hash: Hash, now: Time) returns (evs: seq<Event>)
      requires Valid()
      modifies this, txs.Values
      ensures Valid() && txs == old(txs)
      ensures (View(), evs) == Lifecycle.Demote(old(View()), hash, now)
    {
      if hash !in txs || txs[hash].state != InBlock { return []; }
      evs := BackToPending(hash, now);
    }

    method BackToPending(hash: Hash, now: Time) returns (evs: seq<Event>)
      requires Valid() && hash in txs && txs[hash].state.InBlock?
      modifies this`byNonce, txs[hash]
      ensures Valid() && txs == old(txs)
      ensures (View(), evs) == Lifecycle.Demote(old(View()), hash, now)
    {
      var tx := txs[hash];
      evs := Events(tx.Snapshot(), Reorged, 0);
      tx.state := InMempool;
      tx.block := ZERO_HASH;
      tx.blockNum := 0;
      tx.pendingSince := now;
      IndexNonce(tx);
      assert Txs() == old(Txs())[hash := tx.Snapshot()];
    }

    // -------------------------------------------------------------- queries

    /**
     The confirmation and staleness candidates at a new head. Map iteration makes their order arbitrary;
     they are exactly the mined transactions past the threshold and the pending ones past the timeout.
     */
    method OnHead(headNumber: nat, finalized: nat, now: Time) returns (confirm: seq<Hash>, stale: seq<Hash>)
      requires Valid()
      ensures Invariant.NoDup(confirm) && Invariant.NoDup(stale)
      ensures forall h :: h in confirm <==> Candidate(cfg, View(), h, headNumber, finalized)
      ensures forall h :: h in stale <==> Stale(cfg, View(), h, now)
      ensures forall h :: h in confirm ==>
        && h in View().txs && View().txs[h].state == InBlock
        && (cfg.tagMode ==> 0 < finalized && View().txs[h].blockNum <= finalized)
        && (!cfg.tagMode && cfg.depth > 0 ==> View().txs[h].blockNum + cfg.depth <= headNumber + 1)
      ensures forall h :: h in View().txs && View().txs[h].state == InBlock && h !in confirm ==>
        && (cfg.tagMode ==> finalized == 0 || View().txs[h].blockNum > finalized)
        && (!cfg.tagMode ==> cfg.depth > 0 && View().txs[h].blockNum + cfg.depth > headNumber + 1)
      ensures forall h :: h in stale <==>
        h in View().txs && View().txs[h].state == InMempool && now - View().txs[h].pendingSince > cfg.timeout
    {
      confirm, stale := [], [];
      var unvisited := txs.Keys;
      while unvisited != {}
        invariant unvisited <= txs.Keys
        invariant forall h :: h in confirm <==> h !in unvisited && Candidate(cfg, View(), h, headNumber, finalized)
        invariant forall h :: h in stale <==> h !in unvisited && Stale(cfg, View(), h, now)
        invariant Invariant.NoDup(confirm) && Invariant.NoDup(stale)
        decreases unvisited
      {
        var hash :| hash in unvisited;
        var tx := txs[hash];
        match tx.state {
          case InBlock =>
            var depth := 0;
            if headNumber >= tx.blockNum {
              depth := headNumber - tx.blockNum + 1;
            }
            if ConfirmedAt(cfg, tx.blockNum, depth, finalized) {
              confirm := confirm + [hash];
            }
          case InMempool =>
            if tx.pendingSince + cfg.timeout < now {
              stale := stale + [hash];
            }
        }
        unvisited := unvisited - {hash};
      }
    }

    method IsPending(hash: Hash) returns (pending: bool)
      requires Valid()
      ensures pending == Effects.IsPending(View(), hash)
    {
      pending := hash in txs && txs[hash].state == InMempool;
    }

    method MinedBlock(hash: Hash) returns (block: Hash, number: nat, mined: bool)
      requires Valid()
      ensures mined == Effects.IsMined(View(), hash)
      ensures mined ==> block == View().txs[hash].block && number == View().txs[hash].blockNum
    {
      if hash !in txs || txs[hash].state != InBlock { return ZERO_HASH, 0, false; }
      return txs[hash].block, txs[hash].blockNum, true;
    }

    /** The native legs of a tracked transaction, in order: committed by the transaction itself, they stay valid. */
    method NativeLegs(hash: Hash) returns (legs: seq<Match>)
      requires Valid()
      ensures legs == if hash in View().txs then Natives(View().txs[hash].transfers) else []
    {
      legs := [];
      if hash !in txs { return; }
      var all := txs[hash].transfers;
      for i := 0 to |all|
        invariant legs == Natives(all[..i])
      {
        assert all[..i + 1][..i] == all[..i];
        if all[i].token.None? {
          legs := legs + [all[i]];
        }
      }
      assert all[..|all|] == all;
    }

    /** Snapshots one tracked transaction for persistence. */
    method ExportTx(hash: Hash) returns (out: Option<Storage.StoredTx>)
      requires Valid()
      ensures out == if hash in View().txs then Some(Exported(View().txs[hash])) else None
    {
      if hash !in txs { return None; }
      var tx := txs[hash].Snapshot();
      var legs: seq<Storage.Transfer> := [];
      for i := 0 to |tx.transfers|
        invariant legs == ExportedLegs(tx.transfers[..i])
      {
        legs := legs + [ExportedLeg(tx.transfers[i])];
      }
      assert tx.transfers[..|tx.transfers|] == tx.transfers;
      out := Some(Exported(tx).(transfers := legs));
    }

    /** Restores persisted transactions without events. Rows with no active status are skipped and reported. */
    method Import(stored: seq<Storage.StoredTx>) returns (skipped: bool)
      requires Valid()
      modifies this
      ensures Valid() && fresh(txs.Values - old(txs.Values))
      ensures View() == ImportAll(old(View()), stored)
      ensures skipped <==> exists i :: 0 <= i < |stored| && !Storage.Active(stored[i].head.status)
    {
      skipped := false;
      ghost var s0 := View();
      for i := 0 to |stored|
        invariant Valid() && fresh(txs.Values - old(txs.Values))
        invariant forall h :: h in old(txs) ==> unchanged(old(txs)[h])
        invariant View() == ImportAll(s0, stored[..i])
        invariant skipped <==> exists k :: 0 <= k < i && !Storage.Active(stored[k].head.status)
      {
        assert stored[..i + 1][..i] == stored[..i];
        if !Storage.Active(stored[i].head.status) {
          skipped := true;
          continue;
        }
        var tx := new TrackedTx(Imported(stored[i]));
        Restore(tx);
      }
      assert stored[..|stored|] == stored;
    }

    method Restore(tx: TrackedTx)
      requires Valid()
      modifies this`txs, this`byNonce
      ensures Valid() && txs == old(txs)[tx.hash := tx]
      ensures View() == old(View()).(
        txs := old(View()).txs[tx.hash := tx.Snapshot()],
        byNonce := if tx.state.InMempool? then Index(old(byNonce), tx.Snapshot()) else old(byNonce))
    {
      txs := txs[tx.hash := tx];
      if tx.state == InMempool {
        IndexNonce(tx);
      }
      assert Txs() == old(Txs())[tx.hash := tx.Snapshot()];
    }

    /** The mempool wait, whose meaning over runs is `Grammar.WaitIsMempoolTime`. */
    method MempoolWait(hash: Hash) returns (wait: int, known: bool)
      requires Valid()
      ensures WaitIn(View(), hash) == if known then Some(wait) else None
    {
      if hash !in txs || !txs[hash].hasNonce || txs[hash].minedAt == NO_TIME { return 0, false; }
      return txs[hash].minedAt - txs[hash].firstSeen, true;
    }
  }

  lemma IntoBlockParts(s: State, s': State, hash: Hash, block: Hash, blockNum: nat, transfers: seq<Match>, now: Time)
    requires s'.memory == s.memory
    requires var before := Discovered(s, hash, now);
             && s'.txs == s.txs[hash := before][hash := Included(before, block, blockNum, transfers, now)]
             && s'.byNonce == if before.state.InMempool? then Unindex(s.byNonce, before) else s.byNonce
    ensures s' == IntoBlock(s, hash, block, blockNum, transfers, now)
  {
  }

  /** A mined transaction past the confirmation threshold at `headNumber`. */
  ghost predicate Candidate(cfg: Config, s: State, h: Hash, headNumber: nat, finalized: nat) {
    && Effects.IsMined(s, h)
    && ConfirmedAt(cfg, s.txs[h].blockNum,
                   if headNumber >= s.txs[h].blockNum then headNumber - s.txs[h].blockNum + 1 else 0, finalized)
  }

  ghost predicate Stale(cfg: Config, s: State, h: Hash, now: Time) {
    Effects.IsPending(s, h) && s.txs[h].pendingSince + cfg.timeout < now
  }
}
