/** What every input keeps: the tracker invariant, and the exactness of the nonce index. */
module Invariant {
  import opened Types
  import opened Tombstones
  import opened Lifecycle

  // ---------------------------------------------------------------- the invariant

  predicate Occupies(tx: Tx, key: NonceKey) {
    tx.state.InMempool? && tx.hasNonce && Slot(tx) == key
  }

  ghost predicate NoDup(hashes: seq<Hash>) {
    forall i, j :: 0 <= i < j < |hashes| ==> hashes[i] != hashes[j]
  }

  ghost predicate Listed(byNonce: map<NonceKey, seq<Hash>>, key: NonceKey, hash: Hash) {
    key in byNonce && hash in byNonce[key]
  }

  /** Every slot list is non-empty and duplicate-free, and holds exactly the pending occupants of its slot. */
  ghost predicate NonceExact(txs: map<Hash, Tx>, byNonce: map<NonceKey, seq<Hash>>) {
    && (forall key :: key in byNonce ==> byNonce[key] != [] && NoDup(byNonce[key]))
    && (forall key, h :: Listed(byNonce, key, h) <==> h in txs && Occupies(txs[h], key))
  }

  ghost predicate TxOk(hash: Hash, tx: Tx) {
    && tx.hash == hash
    && tx.transfers != [] && LegsOf(tx.transfers, hash)
    && (tx.state.InBlock? ==> tx.authoritative)
    && (tx.state.InMempool? ==> tx.block == ZERO_HASH && tx.blockNum == 0)
    && (tx.hasNonce || tx.authoritative)
  }

  /** A tracked transaction has no tombstone, except a dropped one that was seen pending again. */
  ghost predicate Graves(s: State) {
    forall h :: h in s.txs && h in s.memory.live ==> s.memory.live[h].typ == Dropped && s.txs[h].state.InMempool?
  }

  ghost predicate Inv(s: State) {
    && (forall h :: h in s.txs ==> TxOk(h, s.txs[h]))
    && NonceExact(s.txs, s.byNonce)
    && Tombstones.Valid(s.memory)
    && Graves(s)
  }

  // ---------------------------------------------------------------- the slot lists

  lemma {:induction false} RemoveFirstDrops(hashes: seq<Hash>, hash: Hash)
    requires NoDup(hashes)
    ensures var r := RemoveFirst(hashes, hash);
            NoDup(r) && forall h :: h in r <==> h in hashes && h != hash
  {
    if hashes == [] {
    } else {
      var rest := hashes[1..];
      assert hashes == [hashes[0]] + rest;
      RemoveFirstDrops(rest, hash);
      if hashes[0] == hash {
        forall h | h in rest ensures h != hash {
          var j :| 0 <= j < |rest| && rest[j] == h;
          assert hashes[0] != hashes[j + 1];
        }
      } else {
        var r := RemoveFirst(rest, hash);
        forall j | 0 <= j < |r| ensures r[j] != hashes[0] {
          assert r[j] in rest;
          var k :| 0 <= k < |rest| && rest[k] == r[j];
          assert hashes[0] != hashes[k + 1];
        }
      }
    }
  }

  /** Indexing a transaction that was in no slot list keeps the index exact. */
  lemma IndexExact(txs: map<Hash, Tx>, byNonce: map<NonceKey, seq<Hash>>, tx: Tx)
    requires NonceExact(txs, byNonce)
    requires tx.state.InMempool?
    requires tx.hash in txs ==> txs[tx.hash].state.InBlock?
    ensures NonceExact(txs[tx.hash := tx], Index(byNonce, tx))
  {
    var txs', byNonce' := txs[tx.hash := tx], Index(byNonce, tx);
    assert forall key :: !Listed(byNonce, key, tx.hash);
    if tx.hasNonce {
      var listed := Occupants(byNonce, Slot(tx));
      assert byNonce'[Slot(tx)] == listed + [tx.hash];
      assert tx.hash !in listed by { assert !Listed(byNonce, Slot(tx), tx.hash); }
      assert NoDup(listed + [tx.hash]);
    }
    forall key, h ensures Listed(byNonce', key, h) <==> h in txs' && Occupies(txs'[h], key) {
      assert Listed(byNonce, key, h) <==> h in txs && Occupies(txs[h], key);
    }
  }

  /** Unindexing a transaction that leaves the mempool (to a block or for good) keeps the index exact. */
  lemma UnindexExact(txs: map<Hash, Tx>, byNonce: map<NonceKey, seq<Hash>>, hash: Hash, txs': map<Hash, Tx>)
    requires NonceExact(txs, byNonce)
    requires hash in txs && txs[hash].hash == hash && txs[hash].state.InMempool?
    requires hash in txs' ==> txs'[hash].state.InBlock?
    requires forall h :: h != hash ==> (h in txs' <==> h in txs) && (h in txs ==> txs'[h] == txs[h])
    ensures NonceExact(txs', Unindex(byNonce, txs[hash]))
  {
    var tx := txs[hash];
    var byNonce' := Unindex(byNonce, tx);
    if tx.hasNonce {
      assert Listed(byNonce, Slot(tx), hash);
      RemoveFirstDrops(byNonce[Slot(tx)], hash);
    }
    forall key, h ensures Listed(byNonce', key, h) <==> h in txs' && Occupies(txs'[h], key) {
      assert Listed(byNonce, key, h) <==> h in txs && Occupies(txs[h], key);
    }
  }

  /** Forgetting or re-mining a transaction that was in no slot list leaves the index alone. */
  lemma UntouchedExact(txs: map<Hash, Tx>, byNonce: map<NonceKey, seq<Hash>>, hash: Hash, txs': map<Hash, Tx>)
    requires NonceExact(txs, byNonce)
    requires hash in txs ==> txs[hash].state.InBlock?
    requires hash in txs' ==> txs'[hash].state.InBlock?
    requires forall h :: h != hash ==> (h in txs' <==> h in txs) && (h in txs ==> txs'[h] == txs[h])
    ensures NonceExact(txs', byNonce)
  {
    forall key, h ensures Listed(byNonce, key, h) <==> h in txs' && Occupies(txs'[h], key) {
      assert Listed(byNonce, key, h) <==> h in txs && Occupies(txs[h], key);
    }
  }

  // ---------------------------------------------------------------- what every input keeps

  /** Settling `hash` buries it and cannot disturb another transaction's grave. */
  lemma SettleKeepsGraves(s: State, hash: Hash, typ: EventType)
    requires Tombstones.Valid(s.memory)
    requires forall h :: h in s.txs && h in s.memory.live && h != hash
               ==> s.memory.live[h].typ == Dropped && s.txs[h].state.InMempool?
    ensures Tombstones.Valid(Settle(s, hash, typ).memory) && Graves(Settle(s, hash, typ))
    ensures Remembers(Settle(s, hash, typ).memory, hash, Tombstone(typ, s.memory.last + 1))
  {
    BuryRefines(s.memory, hash, typ);
    BuryRemembers(s.memory, hash, typ);
    var s' := Settle(s, hash, typ);
    forall h | h in s'.txs && h in s'.memory.live ensures s'.memory.live[h].typ == Dropped && s'.txs[h].state.InMempool? {
      BuryForgetsOnlyTheOldest(s.memory, hash, typ, h);
    }
  }

  lemma OnPendingKeepsInv(s: State, matches: seq<Match>, now: Time)
    requires Inv(s) && WellFormed(s, SeenPending(matches, now))
    ensures Inv(OnPending(s, matches, now).0)
  {
    var s' := OnPending(s, matches, now).0;
    if s' != s {
      IndexExact(s.txs, s.byNonce, s'.txs[matches[0].txHash]);
    }
  }

  lemma ExhumeKeepsInv(s: State, hash: Hash)
    requires Inv(s)
    ensures Inv(Exhume(s, hash)) && hash !in Exhume(s, hash).memory.live
  {
    ClearRefines(s.memory, hash);
  }

  /** Entering a block keeps everything but, until the verdict, authority: `hash` may be a mere calldata guess. */
  ghost predicate InvExcept(s: State, hash: Hash) {
    && (forall h :: h in s.txs && h != hash ==> TxOk(h, s.txs[h]))
    && hash in s.txs && s.txs[hash].state.InBlock?
    && (s.txs[hash].authoritative ==> TxOk(hash, s.txs[hash]))
    && NonceExact(s.txs, s.byNonce)
    && Tombstones.Valid(s.memory)
    && Graves(s)
    && hash !in s.memory.live
  }

  lemma IntoBlockKeeps(s: State, hash: Hash, block: Hash, blockNum: nat, transfers: seq<Match>, now: Time)
    requires Inv(s) && hash !in s.memory.live && LegsOf(transfers, hash)
    ensures InvExcept(IntoBlock(s, hash, block, blockNum, transfers, now), hash)
  {
    var txs' := IntoBlock(s, hash, block, blockNum, transfers, now).txs;
    if hash in s.txs && s.txs[hash].state.InMempool? {
      UnindexExact(s.txs, s.byNonce, hash, txs');
    } else {
      UntouchedExact(s.txs, s.byNonce, hash, txs');
    }
  }

  lemma SettleKeepsInv(s: State, hash: Hash, typ: EventType)
    requires InvExcept(s, hash)
    ensures Inv(Settle(s, hash, typ))
  {
    UntouchedExact(s.txs, s.byNonce, hash, s.txs - {hash});
    SettleKeepsGraves(s, hash, typ);
  }

  lemma JudgeKeepsInv(cfg: Config, s: State, hash: Hash, failed: bool, confirmations: nat, finalized: nat)
    requires InvExcept(s, hash)
    ensures Inv(Judge(cfg, s, hash, failed, confirmations, finalized).0)
  {
    SettleKeepsInv(s, hash, Failed);
    SettleKeepsInv(s, hash, Confirmed);
  }

  lemma OnMinedKeepsInv(cfg: Config, s: State, hash: Hash, block: Hash, blockNum: nat, transfers: seq<Match>,
                        failed: bool, confirmations: nat, finalized: nat, now: Time)
    requires Inv(s) && LegsOf(transfers, hash)
    ensures Inv(OnMined(cfg, s, hash, block, blockNum, transfers, failed, confirmations, finalized, now).0)
  {
    hide Tombstones.Valid, NonceExact, Graves, TxOk, IntoBlock, Exhume;
    ExhumeKeepsInv(s, hash);
    var s1 := Exhume(s, hash);
    IntoBlockKeeps(s1, hash, block, blockNum, transfers, now);
    JudgeKeepsInv(cfg, IntoBlock(s1, hash, block, blockNum, transfers, now), hash, failed,
                  if confirmations == 0 then 1 else confirmations, finalized);
  }

  lemma ConfirmKeepsInv(s: State, hash: Hash, headNumber: nat)
    requires Inv(s)
    ensures Inv(Confirm(s, hash, headNumber).0)
  {
    if hash in s.txs && s.txs[hash].state.InBlock? {
      SettleKeepsInv(s, hash, Confirmed);
    }
  }

  lemma LeaveMempoolKeepsInv(s: State, hash: Hash, typ: EventType)
    requires Inv(s) && hash in s.txs && s.txs[hash].state.InMempool?
    ensures Inv(Settle(s.(byNonce := Unindex(s.byNonce, s.txs[hash])), hash, typ))
  {
    UnindexExact(s.txs, s.byNonce, hash, s.txs - {hash});
    SettleKeepsGraves(s.(byNonce := Unindex(s.byNonce, s.txs[hash])), hash, typ);
  }

  lemma OnDropStaleKeepsInv(s: State, hash: Hash, stillKnown: bool, now: Time)
    requires Inv(s)
    ensures Inv(OnDropStale(s, hash, stillKnown, now).0)
  {
    if hash in s.txs && s.txs[hash].state.InMempool? {
      if stillKnown {
        var txs' := s.txs[hash := s.txs[hash].(pendingSince := now)];
        forall key, h ensures Listed(s.byNonce, key, h) <==> h in txs' && Occupies(txs'[h], key) {
          assert Listed(s.byNonce, key, h) <==> h in s.txs && Occupies(s.txs[h], key);
        }
      } else {
        LeaveMempoolKeepsInv(s, hash, Dropped);
      }
    }
  }

  lemma {:induction false} ReplaceAllKeepsInv(s: State, occupants: seq<Hash>, winner: Hash)
    requires Inv(s)
    ensures Inv(ReplaceAll(s, occupants, winner).0)
  {
    if occupants == [] {
    } else {
      var init, last := occupants[..|occupants| - 1], occupants[|occupants| - 1];
      ReplaceAllKeepsInv(s, init, winner);
      var s1 := ReplaceAll(s, init, winner).0;
      if last != winner && last in s1.txs && s1.txs[last].state.InMempool? {
        LeaveMempoolKeepsInv(s1, last, Replaced);
      }
    }
  }

  lemma DemoteKeepsInv(s: State, hash: Hash, now: Time)
    requires Inv(s)
    ensures Inv(Demote(s, hash, now).0)
  {
    if hash in s.txs && s.txs[hash].state.InBlock? {
      IndexExact(s.txs, s.byNonce, BackToMempool(s.txs[hash], now));
    }
  }

  lemma {:induction false} OnReorgKeepsInv(s: State, ancestor: nat, order: seq<Hash>, now: Time)
    requires Inv(s)
    ensures Inv(OnReorg(s, ancestor, order, now).0)
  {
    if order == [] {
    } else {
      OnReorgKeepsInv(s, ancestor, order[..|order| - 1], now);
      DemoteKeepsInv(OnReorg(s, ancestor, order[..|order| - 1], now).0, order[|order| - 1], now);
    }
  }

  /** The invariant survives every input. */
  lemma StepKeepsInv(cfg: Config, s: State, i: Input)
    requires Inv(s) && WellFormed(s, i)
    ensures Inv(Step(cfg, s, i).0)
  {
    match i
    case SeenPending(matches, now) => OnPendingKeepsInv(s, matches, now);
    case FoundMined(hash, block, num, transfers, failed, conf, fin, now) =>
      OnMinedKeepsInv(cfg, s, hash, block, num, transfers, failed, conf, fin, now);
    case Verified(hash, head) => ConfirmKeepsInv(s, hash, head);
    case Rechecked(hash, still, now) => OnDropStaleKeepsInv(s, hash, still, now);
    case NonceUsed(sender, nonce, winner) =>
      ReplaceAllKeepsInv(s, Occupants(s.byNonce, NonceKey(sender, nonce)), winner);
    case ForkedAt(ancestor, order, now) => OnReorgKeepsInv(s, ancestor, order, now);
    case Demoted(hash, now) => DemoteKeepsInv(s, hash, now);
  }
}
