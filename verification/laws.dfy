/**
 What each tracker input means to its caller, field by field: the transaction before and after, its slot's memory,
 and every event with its position. Nothing here mentions how the tracker computes it.
 */
module Laws {
  import opened Types
  import Tombstones
  import opened Lifecycle
  import opened Invariant
  import opened Effects
  import opened Blocks
  import opened Journal
  import opened Film
  import opened Nodes
  import opened Chain
  import Tracking

  /** One event of the type for each leg, in order, all at one position and depth. */
  ghost predicate AllSay(evs: seq<Event>, typ: EventType, legs: seq<Match>, firstSeen: Time, firstSeenBlock: nat, minedAt: Time,
                         blockNum: nat, block: Hash, confirmations: nat, winner: Option<Hash>)
  {
    && |evs| == |legs|
    && forall i :: 0 <= i < |evs| ==>
         evs[i] == Event(typ, legs[i], firstSeen, firstSeenBlock, minedAt, blockNum, block, confirmations, winner)
  }

  /** No other transaction and no other tombstone but evicted ones changed. */
  ghost predicate OthersKept(s: State, s': State, h: Hash) {
    forall g :: g != h ==> (g in s'.txs <==> g in s.txs) && (g in s.txs ==> s'.txs[g] == s.txs[g])
  }

  /** The transaction is over, and how it ended is remembered. */
  ghost predicate EndedAs(s': State, h: Hash, typ: EventType) {
    h !in s'.txs && h in s'.memory.live && s'.memory.live[h].typ == typ
  }

  lemma BuriedLast(m: Tombstones.Memory, h: Hash, typ: EventType)
    requires Tombstones.Valid(m)
    ensures h in Tombstones.Bury(m, h, typ).live && Tombstones.Bury(m, h, typ).live[h].typ == typ
  {
    Tombstones.BuryRemembers(m, h, typ);
  }

  // ---------------------------------------------------------------- the mempool

  /**
   A first sighting is followed from now on as pending, under the signer and nonce of its first leg, and reported
   leg by leg. It is ignored when the transaction is tracked already, or ended otherwise than by being dropped.
   */
  lemma SightingLaw(s: State, matches: seq<Match>, now: Time)
    requires matches != []
    ensures var (s', evs) := Lifecycle.OnPending(s, matches, now);
            var h := matches[0].txHash;
            var known := h in s.txs || (h in s.memory.live && s.memory.live[h].typ != Dropped);
            && (known ==> s' == s && evs == [])
            && (!known ==>
                 && OthersKept(s, s', h) && s'.memory == s.memory && h in s'.txs
                 && s'.txs[h] == Tx(h, matches, false, InMempool, ZERO_HASH, 0, now, 0, NO_TIME, now,
                                    matches[0].txSender, matches[0].txNonce, true)
                 && (var key := NonceKey(matches[0].txSender, matches[0].txNonce);
                     key in s'.byNonce && s'.byNonce[key] == (if key in s.byNonce then s.byNonce[key] else []) + [h])
                 && AllSay(evs, EventType.Pending, matches, now, 0, NO_TIME, 0, ZERO_HASH, 0, None))
  {
  }

  /**
   A pending transaction past its timeout: the node still has it, and it waits on with a fresh timer, silently; or
   the node has it no more, and it is reported dropped, leg by leg, remembered as dropped and followed no longer.
   */
  lemma RecheckLaw(s: State, h: Hash, stillKnown: bool, now: Time)
    requires Inv(s) && IsPending(s, h)
    ensures var (s', evs) := Lifecycle.OnDropStale(s, h, stillKnown, now);
            && OthersKept(s, s', h)
            && (stillKnown ==>
                 && evs == [] && s'.memory == s.memory && s'.byNonce == s.byNonce
                 && h in s'.txs && s'.txs[h] == s.txs[h].(pendingSince := now))
            && (!stillKnown ==>
                 && EndedAs(s', h, EventType.Dropped)
                 && AllSay(evs, EventType.Dropped, s.txs[h].transfers, s.txs[h].firstSeen, s.txs[h].firstSeenBlock,
                           s.txs[h].minedAt, 0, ZERO_HASH, 0, None))
  {
    hide Tombstones.Valid, Tombstones.Bury, NonceExact, Graves, Unindex;
    var tx := s.txs[h];
    assert TxOk(h, tx);
    BuriedLast(s.memory, h, EventType.Dropped);
  }

  /** A recheck of anything but a pending transaction does nothing. */
  lemma RecheckIdle(s: State, h: Hash, stillKnown: bool, now: Time)
    requires !IsPending(s, h)
    ensures Lifecycle.OnDropStale(s, h, stillKnown, now) == (s, [])
  {
  }

  // ---------------------------------------------------------------- inclusion

  /** The configured threshold: the chain's finality in tag mode, the block's depth otherwise. */
  ghost predicate Met(cfg: Config, blockNum: nat, depth: nat, finalized: nat) {
    if cfg.tagMode then 0 < finalized && blockNum <= finalized else depth >= cfg.depth
  }

  /** The legs an inclusion delivers: its own, or the ones the transaction is tracked with. */
  ghost function LegsAt(s: State, h: Hash, legs: seq<Match>): seq<Match> {
    if legs != [] then legs else if h in s.txs then s.txs[h].transfers else []
  }

  /** Something proves the legs: the block's own, or an earlier inclusion's. */
  ghost predicate Delivers(s: State, h: Hash, legs: seq<Match>) {
    legs != [] || (h in s.txs && s.txs[h].authoritative)
  }

  /** When the transaction was first seen, first included, and at what time. */
  ghost predicate Anchored(s: State, h: Hash, num: nat, now: Time, firstSeen: Time, firstSeenBlock: nat, minedAt: Time) {
    && firstSeen == (if h in s.txs then s.txs[h].firstSeen else now)
    && (if h in s.txs && s.txs[h].firstSeenBlock != 0
        then firstSeenBlock == s.txs[h].firstSeenBlock && minedAt == s.txs[h].minedAt
        else firstSeenBlock == num && minedAt == now)
  }

  /**
   An inclusion of a transaction that is not confirmed and not already in the block. One that failed is over and
   reported failed. One that delivers is confirmed at once if and only if the threshold is met, and stays tracked in
   the block as mined if and only if it is not. One that delivers nothing is over in silence.
   */
  lemma InclusionLaw(cfg: Config, s: State, h: Hash, block: Hash, num: nat, legs: seq<Match>, failed: bool,
                     confirmations: nat, finalized: nat, now: Time)
    returns (firstSeen: Time, firstSeenBlock: nat, minedAt: Time)
    requires Inv(s) && !ConfirmedGrave(s, h) && !(IsMined(s, h) && s.txs[h].block == block)
    ensures Anchored(s, h, num, now, firstSeen, firstSeenBlock, minedAt)
    ensures var (s', evs) := OnMined(cfg, s, h, block, num, legs, failed, confirmations, finalized, now);
            var depth := if confirmations == 0 then 1 else confirmations;
            var all := LegsAt(s, h, legs);
            && OthersKept(s, s', h)
            && (failed ==>
                 && EndedAs(s', h, EventType.Failed)
                 && AllSay(evs, EventType.Failed, all, firstSeen, firstSeenBlock, minedAt, num, block, depth, None))
            && (!failed && !Delivers(s, h, legs) ==> EndedAs(s', h, EventType.Failed) && evs == [])
            && (!failed && Delivers(s, h, legs) && Met(cfg, num, depth, finalized) ==>
                 && EndedAs(s', h, EventType.Confirmed)
                 && AllSay(evs, EventType.Confirmed, all, firstSeen, firstSeenBlock, minedAt, num, block, depth, None))
            && (!failed && Delivers(s, h, legs) && !Met(cfg, num, depth, finalized) ==>
                 && h in s'.txs && h !in s'.memory.live
                 && s'.txs[h].state == InBlock && s'.txs[h].block == block && s'.txs[h].blockNum == num
                 && s'.txs[h].transfers == all && s'.txs[h].authoritative
                 && s'.txs[h].firstSeen == firstSeen && s'.txs[h].firstSeenBlock == firstSeenBlock && s'.txs[h].minedAt == minedAt
                 && (h in s.txs ==> s'.txs[h].sender == s.txs[h].sender && s'.txs[h].nonce == s.txs[h].nonce
                                    && s'.txs[h].hasNonce == s.txs[h].hasNonce)
                 && AllSay(evs, EventType.Mined, all, firstSeen, firstSeenBlock, minedAt, num, block, depth, None))
  {
    hide Tombstones.Clear, Inv, Judge, IntoBlock;
    var s1 := Exhume(s, h);
    ExhumedMemory(s, h);
    firstSeen, firstSeenBlock, minedAt := EntryLaw(s1, h, block, num, legs, now);
    JudgmentLaw(cfg, IntoBlock(s1, h, block, num, legs, now), h, failed, if confirmations == 0 then 1 else confirmations, finalized);
  }

  /** Where an inclusion puts a transaction, before it is judged. */
  lemma EntryLaw(s: State, h: Hash, block: Hash, num: nat, legs: seq<Match>, now: Time)
    returns (firstSeen: Time, firstSeenBlock: nat, minedAt: Time)
    ensures Anchored(s, h, num, now, firstSeen, firstSeenBlock, minedAt)
    ensures var s' := IntoBlock(s, h, block, num, legs, now);
            && OthersKept(s, s', h) && s'.memory == s.memory && h in s'.txs
            && s'.txs[h].state == InBlock && s'.txs[h].block == block && s'.txs[h].blockNum == num
            && s'.txs[h].transfers == LegsAt(s, h, legs) && (s'.txs[h].authoritative <==> Delivers(s, h, legs))
            && s'.txs[h].firstSeen == firstSeen && s'.txs[h].firstSeenBlock == firstSeenBlock && s'.txs[h].minedAt == minedAt
            && (h in s.txs ==> s'.txs[h].sender == s.txs[h].sender && s'.txs[h].nonce == s.txs[h].nonce
                               && s'.txs[h].hasNonce == s.txs[h].hasNonce)
            && (h !in s.txs ==> !s'.txs[h].hasNonce)
  {
    hide Unindex;
    firstSeen := if h in s.txs then s.txs[h].firstSeen else now;
    firstSeenBlock := if h in s.txs && s.txs[h].firstSeenBlock != 0 then s.txs[h].firstSeenBlock else num;
    minedAt := if h in s.txs && s.txs[h].firstSeenBlock != 0 then s.txs[h].minedAt else now;
  }

  lemma JudgmentLaw(cfg: Config, s: State, h: Hash, failed: bool, depth: nat, finalized: nat)
    requires h in s.txs && s.txs[h].state == InBlock && Tombstones.Valid(s.memory)
    ensures var (s', evs) := Judge(cfg, s, h, failed, depth, finalized);
            var tx := s.txs[h];
            && OthersKept(s, s', h)
            && (failed ==>
                 && EndedAs(s', h, EventType.Failed)
                 && AllSay(evs, EventType.Failed, tx.transfers, tx.firstSeen, tx.firstSeenBlock, tx.minedAt, tx.blockNum, tx.block, depth, None))
            && (!failed && !tx.authoritative ==> EndedAs(s', h, EventType.Failed) && evs == [])
            && (!failed && tx.authoritative && Met(cfg, tx.blockNum, depth, finalized) ==>
                 && EndedAs(s', h, EventType.Confirmed)
                 && AllSay(evs, EventType.Confirmed, tx.transfers, tx.firstSeen, tx.firstSeenBlock, tx.minedAt, tx.blockNum, tx.block, depth, None))
            && (!failed && tx.authoritative && !Met(cfg, tx.blockNum, depth, finalized) ==>
                 && s' == s
                 && AllSay(evs, EventType.Mined, tx.transfers, tx.firstSeen, tx.firstSeenBlock, tx.minedAt, tx.blockNum, tx.block, depth, None))
  {
    hide Tombstones.Valid, Tombstones.Bury;
    BuriedLast(s.memory, h, EventType.Failed);
    BuriedLast(s.memory, h, EventType.Confirmed);
  }

  lemma ExhumedMemory(s: State, h: Hash)
    requires Inv(s)
    ensures Tombstones.Valid(Exhume(s, h).memory) && h !in Exhume(s, h).memory.live && Exhume(s, h).txs == s.txs
  {
    hide Tombstones.Valid, Tombstones.Queue, Tombstones.Without, NonceExact, Graves;
    Tombstones.ClearRefines(s.memory, h);
  }

  /** A confirmed transaction's inclusion, and one in the block it is already in, change and report nothing. */
  lemma InclusionIdle(cfg: Config, s: State, h: Hash, block: Hash, num: nat, legs: seq<Match>, failed: bool,
                      confirmations: nat, finalized: nat, now: Time)
    requires Inv(s) && (ConfirmedGrave(s, h) || (IsMined(s, h) && s.txs[h].block == block))
    ensures OnMined(cfg, s, h, block, num, legs, failed, confirmations, finalized, now) == (s, [])
  {
    hide Tombstones.Valid, NonceExact, Judge, IntoBlock;
  }

  /** A verified inclusion at or below the head is confirmed, at its depth below it; nothing else is. */
  lemma VerificationLaw(s: State, h: Hash, headNumber: nat)
    requires Inv(s)
    ensures var (s', evs) := Lifecycle.Confirm(s, h, headNumber);
            var due := h in s.txs && s.txs[h].state == InBlock && s.txs[h].blockNum <= headNumber;
            && OthersKept(s, s', h) && s'.byNonce == s.byNonce
            && (!due ==> s' == s && evs == [])
            && (due ==>
                 && EndedAs(s', h, EventType.Confirmed)
                 && AllSay(evs, EventType.Confirmed, s.txs[h].transfers, s.txs[h].firstSeen, s.txs[h].firstSeenBlock,
                           s.txs[h].minedAt, s.txs[h].blockNum, s.txs[h].block, headNumber + 1 - s.txs[h].blockNum, None))
  {
    hide Tombstones.Valid, Tombstones.Bury, NonceExact, Graves;
    BuriedLast(s.memory, h, EventType.Confirmed);
  }

  // ---------------------------------------------------------------- back to the mempool

  /** Out of its block and pending again since now, with all else kept; reported with the block it was in. */
  ghost predicate Reverts(tx: Tx, tx': Tx, now: Time) {
    && tx'.state == InMempool && tx'.block == ZERO_HASH && tx'.blockNum == 0 && tx'.pendingSince == now
    && tx'.hash == tx.hash && tx'.transfers == tx.transfers && tx'.authoritative == tx.authoritative
    && tx'.firstSeen == tx.firstSeen && tx'.firstSeenBlock == tx.firstSeenBlock && tx'.minedAt == tx.minedAt
    && tx'.sender == tx.sender && tx'.nonce == tx.nonce && tx'.hasNonce == tx.hasNonce
  }

  lemma DemotionLaw(s: State, h: Hash, now: Time)
    ensures var (s', evs) := Lifecycle.Demote(s, h, now);
            && OthersKept(s, s', h) && s'.memory == s.memory
            && (!IsMined(s, h) ==> s' == s && evs == [])
            && (IsMined(s, h) ==>
                 && h in s'.txs && Reverts(s.txs[h], s'.txs[h], now)
                 && AllSay(evs, EventType.Reorged, s.txs[h].transfers, s.txs[h].firstSeen, s.txs[h].firstSeenBlock,
                           s.txs[h].minedAt, s.txs[h].blockNum, s.txs[h].block, 0, None))
  {
  }

  /** A reorg reverts what is mined above the ancestor, and reports exactly that. */
  lemma ReorgLaw(s: State, ancestor: nat, order: seq<Hash>, now: Time, h: Hash)
    requires Inv(s) && Enumerates(order, s.txs.Keys)
    ensures var (s', evs) := Lifecycle.OnReorg(s, ancestor, order, now);
            var above := h in s.txs && s.txs[h].state == InBlock && s.txs[h].blockNum > ancestor;
            && s'.memory == s.memory && (h in s'.txs <==> h in s.txs)
            && (!above ==> (h in s.txs ==> s'.txs[h] == s.txs[h]) && EventsFor(evs, h) == [])
            && (above ==>
                 && Reverts(s.txs[h], s'.txs[h], now)
                 && AllSay(EventsFor(evs, h), EventType.Reorged, s.txs[h].transfers, s.txs[h].firstSeen, s.txs[h].firstSeenBlock,
                           s.txs[h].minedAt, s.txs[h].blockNum, s.txs[h].block, 0, None))
  {
    hide EventsFor, Lifecycle.OnReorg, Tombstones.Valid, NonceExact, Graves;
    OnReorgExact(s, ancestor, order, now);
    if h in s.txs { assert TxOk(h, s.txs[h]); }
  }

  // ---------------------------------------------------------------- consumed nonces

  /**
   A consumed nonce ends every other pending transaction of the signer with that nonce, reported replaced by the
   winner, and touches nothing else.
   */
  lemma ReplacementLaw(s: State, sender: Address, nonce: nat, winner: Hash, h: Hash)
    requires Inv(s)
    ensures var (s', evs) := OnNonceUsed(s, sender, nonce, winner);
            var loses := h != winner && h in s.txs && s.txs[h].state == InMempool && s.txs[h].hasNonce
                         && s.txs[h].sender == sender && s.txs[h].nonce == nonce;
            && (!loses ==> (h in s'.txs <==> h in s.txs) && (h in s.txs ==> s'.txs[h] == s.txs[h]) && EventsFor(evs, h) == [])
            && (loses ==>
                 && h !in s'.txs && BuriedAs(s.memory, s'.memory, h, EventType.Replaced)
                 && AllSay(EventsFor(evs, h), EventType.Replaced, s.txs[h].transfers, s.txs[h].firstSeen, s.txs[h].firstSeenBlock,
                           s.txs[h].minedAt, 0, ZERO_HASH, 0, Some(winner)))
  {
    hide EventsFor, OnNonceUsed, Tombstones.Valid, NonceExact, Graves;
    OnNonceUsedExact(s, sender, nonce, winner);
    OnNonceUsedBuries(s, sender, nonce, winner, h);
  }

  lemma OnNonceUsedBuries(s: State, sender: Address, nonce: nat, winner: Hash, h: Hash)
    requires Inv(s)
    ensures var s' := OnNonceUsed(s, sender, nonce, winner).0;
            h in s.txs && h !in s'.txs ==> BuriedAs(s.memory, s'.memory, h, EventType.Replaced)
  {
    ReplaceAllAges(s, Occupants(s.byNonce, NonceKey(sender, nonce)), winner, h);
  }

  // ---------------------------------------------------------------- a block, one transaction at a time

  lemma AllOwn(evs: seq<Event>, typ: EventType, legs: seq<Match>, firstSeen: Time, firstSeenBlock: nat, minedAt: Time,
               blockNum: nat, block: Hash, confirmations: nat, winner: Option<Hash>, h: Hash, g: Hash)
    requires AllSay(evs, typ, legs, firstSeen, firstSeenBlock, minedAt, blockNum, block, confirmations, winner) && LegsOf(legs, h)
    ensures EventsFor(evs, g) == if g == h then evs else []
  {
    EventsForSame(evs, h, g);
  }

  /** An inclusion's events are all its own. */
  lemma InclusionOwn(cfg: Config, s: State, h: Hash, block: Hash, num: nat, legs: seq<Match>, failed: bool,
                     confirmations: nat, finalized: nat, now: Time, g: Hash)
    requires Inv(s) && LegsOf(legs, h)
    ensures var evs := OnMined(cfg, s, h, block, num, legs, failed, confirmations, finalized, now).1;
            EventsFor(evs, g) == if g == h then evs else []
  {
    hide Tombstones.Valid, NonceExact, Graves, OnMined;
    if ConfirmedGrave(s, h) || (IsMined(s, h) && s.txs[h].block == block) {
      InclusionIdle(cfg, s, h, block, num, legs, failed, confirmations, finalized, now);
    } else {
      var firstSeen, firstSeenBlock, minedAt := InclusionLaw(cfg, s, h, block, num, legs, failed, confirmations, finalized, now);
      if h in s.txs { assert TxOk(h, s.txs[h]); }
      var evs := OnMined(cfg, s, h, block, num, legs, failed, confirmations, finalized, now).1;
      if evs != [] {
        AllOwn(evs, evs[0].typ, LegsAt(s, h, legs), firstSeen, firstSeenBlock, minedAt, num, block,
               if confirmations == 0 then 1 else confirmations, None, h, g);
      }
    }
  }

  /** `h` is as it was, and nothing was said of it. */
  ghost predicate Silent(s: State, s': State, evs: seq<Event>, h: Hash) {
    (h in s'.txs <==> h in s.txs) && (h in s.txs ==> s'.txs[h] == s.txs[h]) && EventsFor(evs, h) == []
  }

  /** `h` fared in a longer step exactly as in the one from `at` to `to`. */
  ghost predicate Fared(s': State, evs: seq<Event>, to: State, own: seq<Event>, h: Hash) {
    (h in s'.txs <==> h in to.txs) && (h in to.txs ==> s'.txs[h] == to.txs[h]) && EventsFor(evs, h) == own
  }

  lemma {:induction false} MinedSilent(cfg: Config, s: State, b: Block, n: nat, m: Moment, h: Hash)
    requires Inv(s) && WellScanned(b) && n <= |b.mined| && forall j :: 0 <= j < n ==> b.mined[j].hash != h
    ensures Silent(s, AfterMined(cfg, s, b, n, m).0, AfterMined(cfg, s, b, n, m).1, h)
  {
    hide Inv, OnMined, EventsFor;
    NoEvents(h);
    if n > 0 {
      MinedSilent(cfg, s, b, n - 1, m, h);
      AfterMinedKeeps(cfg, s, b, n - 1, m);
      var s1, tx := AfterMined(cfg, s, b, n - 1, m).0, b.mined[n - 1];
      OnMinedIsolated(cfg, s1, tx.hash, b, tx.transfers, tx.failed, m);
      InclusionOwn(cfg, s1, tx.hash, b.hash, b.number, tx.transfers, tx.failed, m.confirmations, m.finalized, m.now, h);
      EventsForConcat(AfterMined(cfg, s, b, n - 1, m).1,
        OnMined(cfg, s1, tx.hash, b.hash, b.number, tx.transfers, tx.failed, m.confirmations, m.finalized, m.now).1, h);
    }
  }

  /** What the block says of its `i`th matched transaction, in the state the entries before it left. */
  ghost function EntryOf(cfg: Config, s: State, b: Block, m: Moment, i: nat): (State, seq<Event>)
    requires i < |b.mined|
  {
    OnMined(cfg, AfterMined(cfg, s, b, i, m).0, b.mined[i].hash, b.hash, b.number, b.mined[i].transfers, b.mined[i].failed,
            m.confirmations, m.finalized, m.now)
  }

  lemma {:induction false} MinedOnce(cfg: Config, s: State, b: Block, n: nat, m: Moment, i: nat)
    requires Inv(s) && WellScanned(b) && i < n <= |b.mined|
    ensures var (s', evs) := AfterMined(cfg, s, b, n, m);
            var (to, own) := EntryOf(cfg, s, b, m, i);
            Fared(s', evs, to, own, b.mined[i].hash)
  {
    hide Inv, OnMined, EventsFor;
    var h := b.mined[i].hash;
    AfterMinedKeeps(cfg, s, b, n - 1, m);
    var s1, tx := AfterMined(cfg, s, b, n - 1, m).0, b.mined[n - 1];
    OnMinedIsolated(cfg, s1, tx.hash, b, tx.transfers, tx.failed, m);
    InclusionOwn(cfg, s1, tx.hash, b.hash, b.number, tx.transfers, tx.failed, m.confirmations, m.finalized, m.now, h);
    EventsForConcat(AfterMined(cfg, s, b, n - 1, m).1,
      OnMined(cfg, s1, tx.hash, b.hash, b.number, tx.transfers, tx.failed, m.confirmations, m.finalized, m.now).1, h);
    if i == n - 1 {
      MinedSilent(cfg, s, b, i, m, h);
    } else {
      MinedOnce(cfg, s, b, n - 1, m, i);
    }
  }

  lemma {:induction false} ResolvedSilent(cfg: Config, s: State, b: Block, n: nat, m: Moment, h: Hash)
    requires Inv(s) && n <= |b.txs|
    requires Scanned(b, h) || !IsPending(s, h) || h !in b.receipts || forall j :: 0 <= j < n ==> b.txs[j].hash != h
    ensures Silent(s, AfterResolved(cfg, s, b, n, m).0, AfterResolved(cfg, s, b, n, m).1, h)
  {
    hide Inv, OnMined, EventsFor;
    NoEvents(h);
    if n > 0 {
      ResolvedSilent(cfg, s, b, n - 1, m, h);
      AfterResolvedKeeps(cfg, s, b, n - 1, m);
      var s1, g := AfterResolved(cfg, s, b, n - 1, m).0, b.txs[n - 1].hash;
      if !Scanned(b, g) && IsPending(s1, g) && g in b.receipts {
        OnMinedIsolated(cfg, s1, g, b, [], b.receipts[g], m);
        InclusionOwn(cfg, s1, g, b.hash, b.number, [], b.receipts[g], m.confirmations, m.finalized, m.now, h);
      }
      EventsForConcat(AfterResolved(cfg, s, b, n - 1, m).1, ResolveOne(cfg, s1, b, g, m).1, h);
    }
  }

  /** A pending transaction of the block the scan did not match is included once, with its receipt's verdict and no legs. */
  lemma {:induction false} ResolvedOnce(cfg: Config, s: State, b: Block, n: nat, m: Moment, h: Hash) returns (at: State)
    requires Inv(s) && n <= |b.txs| && !Scanned(b, h) && IsPending(s, h) && h in b.receipts
    requires exists j :: 0 <= j < n && b.txs[j].hash == h
    ensures Inv(at) && h in at.txs && at.txs[h] == s.txs[h]
    ensures var (s', evs) := AfterResolved(cfg, s, b, n, m);
            var (to, own) := OnMined(cfg, at, h, b.hash, b.number, [], b.receipts[h], m.confirmations, m.finalized, m.now);
            Fared(s', evs, to, own, h) && !IsPending(s', h)
  {
    hide Inv, OnMined, EventsFor;
    NoEvents(h);
    AfterResolvedKeeps(cfg, s, b, n - 1, m);
    var s1, g := AfterResolved(cfg, s, b, n - 1, m).0, b.txs[n - 1].hash;
    if !Scanned(b, g) && IsPending(s1, g) && g in b.receipts {
      OnMinedIsolated(cfg, s1, g, b, [], b.receipts[g], m);
      InclusionOwn(cfg, s1, g, b.hash, b.number, [], b.receipts[g], m.confirmations, m.finalized, m.now, h);
    }
    EventsForConcat(AfterResolved(cfg, s, b, n - 1, m).1, ResolveOne(cfg, s1, b, g, m).1, h);
    if exists j :: 0 <= j < n - 1 && b.txs[j].hash == h {
      at := ResolvedOnce(cfg, s, b, n - 1, m, h);
    } else {
      ResolvedSilent(cfg, s, b, n - 1, m, h);
      at := s1;
    }
  }

  /** The consumed nonces only ever replace: each event names a transaction of the block with the same signer and nonce. */
  lemma {:induction false} ConsumedLaw(s: State, b: Block, n: nat, h: Hash)
    requires Inv(s) && n <= |b.txs|
    ensures var (s', evs) := AfterConsumed(s, b, n);
            && (!IsPending(s, h) ==> Silent(s, s', evs, h))
            && (h in s'.txs ==> EventsFor(evs, h) == [])
            && (IsPending(s, h) && h !in s'.txs ==>
                 exists j :: 0 <= j < n && ReplacedBy(s.txs[h], h, b.txs[j], EventsFor(evs, h)))
  {
    hide Inv, EventsFor, OnNonceUsed;
    NoEvents(h);
    if n > 0 {
      ConsumedLaw(s, b, n - 1, h);
      AfterConsumedKeeps(s, b, n - 1);
      var (s1, evs1) := AfterConsumed(s, b, n - 1);
      var tx := b.txs[n - 1];
      var evs2 := OnNonceUsed(s1, tx.sender, tx.nonce, tx.hash).1;
      ReplacementLaw(s1, tx.sender, tx.nonce, tx.hash, h);
      EventsForConcat(evs1, evs2, h);
      if IsPending(s, h) && h !in AfterConsumed(s, b, n).0.txs {
        if h in s1.txs {
          assert ReplacedBy(s.txs[h], h, tx, [] + EventsFor(evs2, h));
          assert [] + EventsFor(evs2, h) == EventsFor(evs1 + evs2, h);
        } else {
          assert EventsFor(evs1, h) + [] == EventsFor(evs1, h);
        }
      }
    }
  }

  /** Another transaction of the block took the slot, and every leg was reported replaced by it. */
  ghost predicate ReplacedBy(tx: Tx, h: Hash, winner: BlockTx, own: seq<Event>) {
    && h != winner.hash && tx.hasNonce && tx.sender == winner.sender && tx.nonce == winner.nonce
    && AllSay(own, EventType.Replaced, tx.transfers, tx.firstSeen, tx.firstSeenBlock, tx.minedAt, 0, ZERO_HASH, 0, Some(winner.hash))
  }

  lemma ProcessEvents(cfg: Config, s: State, b: Block, m: Moment, h: Hash)
    requires Inv(s) && WellScanned(b)
    ensures var s1 := AfterMined(cfg, s, b, |b.mined|, m).0;
            var s2 := AfterResolved(cfg, s1, b, |b.txs|, m).0;
            && Inv(s1) && Inv(s2)
            && Process(cfg, s, b, m).0 == AfterConsumed(s2, b, |b.txs|).0
            && EventsFor(Process(cfg, s, b, m).1, h)
               == EventsFor(AfterMined(cfg, s, b, |b.mined|, m).1, h) + EventsFor(AfterResolved(cfg, s1, b, |b.txs|, m).1, h)
                  + EventsFor(AfterConsumed(s2, b, |b.txs|).1, h)
  {
    hide Inv, EventsFor, AfterMined, AfterResolved, AfterConsumed;
    AfterMinedKeeps(cfg, s, b, |b.mined|, m);
    var (s1, e1) := AfterMined(cfg, s, b, |b.mined|, m);
    AfterResolvedKeeps(cfg, s1, b, |b.txs|, m);
    var (s2, e2) := AfterResolved(cfg, s1, b, |b.txs|, m);
    var e3 := AfterConsumed(s2, b, |b.txs|).1;
    EventsForConcat(e1, e2, h);
    EventsForConcat(e1 + e2, e3, h);
  }

  /**
   A matched transaction fares in a block exactly as an inclusion with the scan's legs and verdict, the block's hash
   and number, and the block's depth and finality: `InclusionLaw` says what that is.
   */
  lemma MatchedLaw(cfg: Config, s: State, b: Block, m: Moment, i: nat)
    requires Inv(s) && WellScanned(b) && i < |b.mined|
    ensures var (s', evs) := Process(cfg, s, b, m);
            var (to, own) := EntryOf(cfg, s, b, m, i);
            Fared(s', evs, to, own, b.mined[i].hash)
  {
    hide Inv, EventsFor, AfterMined, AfterResolved, AfterConsumed, Process, OnMined, EntryOf;
    var h := b.mined[i].hash;
    ProcessEvents(cfg, s, b, m, h);
    MinedOnce(cfg, s, b, |b.mined|, m, i);
    AfterMinedKeeps(cfg, s, b, |b.mined|, m);
    var s1 := AfterMined(cfg, s, b, |b.mined|, m).0;
    ResolvedSilent(cfg, s1, b, |b.txs|, m, h);
    ConsumedLaw(AfterResolved(cfg, s1, b, |b.txs|, m).0, b, |b.txs|, h);
  }

  /**
   A pending transaction of the block that the scan did not match, by its receipt: one that failed is over and
   reported failed; one whose legs were proved before is confirmed or mined as the threshold says; a mere guess is
   over in silence.
   */
  lemma UnmatchedLaw(cfg: Config, s: State, b: Block, m: Moment, h: Hash)
    returns (firstSeen: Time, firstSeenBlock: nat, minedAt: Time)
    requires Inv(s) && WellScanned(b) && IsPending(s, h) && !Scanned(b, h) && h in b.receipts
    requires exists j :: 0 <= j < |b.txs| && b.txs[j].hash == h
    ensures Anchored(s, h, b.number, m.now, firstSeen, firstSeenBlock, minedAt)
    ensures var (s', evs) := Process(cfg, s, b, m);
            var own, legs := EventsFor(evs, h), s.txs[h].transfers;
            var depth := if m.confirmations == 0 then 1 else m.confirmations;
            var due := Met(cfg, b.number, depth, m.finalized);
            && (b.receipts[h] ==>
                 h !in s'.txs && AllSay(own, EventType.Failed, legs, firstSeen, firstSeenBlock, minedAt, b.number, b.hash, depth, None))
            && (!b.receipts[h] && !s.txs[h].authoritative ==> h !in s'.txs && own == [])
            && (!b.receipts[h] && s.txs[h].authoritative && due ==>
                 h !in s'.txs && AllSay(own, EventType.Confirmed, legs, firstSeen, firstSeenBlock, minedAt, b.number, b.hash, depth, None))
            && (!b.receipts[h] && s.txs[h].authoritative && !due ==>
                 && IsMined(s', h) && s'.txs[h].block == b.hash && s'.txs[h].blockNum == b.number
                 && AllSay(own, EventType.Mined, legs, firstSeen, firstSeenBlock, minedAt, b.number, b.hash, depth, None))
  {
    hide Inv, EventsFor, AfterMined, AfterResolved, AfterConsumed, Process, OnMined, AllSay;
    ProcessEvents(cfg, s, b, m, h);
    MinedSilent(cfg, s, b, |b.mined|, m, h);
    var s1 := AfterMined(cfg, s, b, |b.mined|, m).0;
    var at := ResolvedOnce(cfg, s1, b, |b.txs|, m, h);
    NoGrave(at, h);
    firstSeen, firstSeenBlock, minedAt :=
      InclusionLaw(cfg, at, h, b.hash, b.number, [], b.receipts[h], m.confirmations, m.finalized, m.now);
    ConsumedLaw(AfterResolved(cfg, s1, b, |b.txs|, m).0, b, |b.txs|, h);
    var told := EventsFor(AfterResolved(cfg, s1, b, |b.txs|, m).1, h);
    assert [] + told + [] == told;
  }

  lemma NoGrave(s: State, h: Hash)
    requires Inv(s) && h in s.txs
    ensures !ConfirmedGrave(s, h)
  {
  }

  // ---------------------------------------------------------------- one answer of a lifecycle pass

  /** A block's depth below the tip, itself included; 1 for one that is not below it. */
  ghost function Below(tip: Option<HeadRef>, blockNum: nat): nat {
    if tip.Some? && blockNum <= tip.value.number then tip.value.number + 1 - blockNum else 1
  }

  lemma RunOne(cfg: Config, s: State, a: Act)
    ensures Run(cfg, s, [a]).s == Perform(cfg, s, a).0 && Run(cfg, s, [a]).evs == Perform(cfg, s, a).1
  {
    hide Perform;
    assert [a][..0] == [];
    assert [] + Perform(cfg, s, a).1 == Perform(cfg, s, a).1;
  }

  lemma RunTwo(cfg: Config, s: State, a: Act, b: Act)
    ensures var (s1, evs1) := Perform(cfg, s, a);
            Run(cfg, s, [a, b]).s == Perform(cfg, s1, b).0 && Run(cfg, s, [a, b]).evs == evs1 + Perform(cfg, s1, b).1
  {
    hide Perform;
    assert [a, b][..1] == [a];
    RunOne(cfg, s, a);
  }

  /**
   The receipt of a mined candidate. In its own block: confirmed, at its depth below the head. None: reverted to the
   mempool. No clear answer: nothing. In another block: reported reverted, then included there, at that block's depth
   below the tip, with the receipt's verdict and the legs proved before.
   */
  lemma CheckLaw(cfg: Config, s: State, tip: Option<HeadRef>, c: Check, answer: Answer<Receipt>, head: nat, fin: nat, seg: seq<Act>)
    returns (firstSeenBlock: nat, minedAt: Time)
    requires Inv(s) && IsMined(s, c.hash) && s.txs[c.hash].block == c.tracked && s.txs[c.hash].blockNum <= head
    requires Verdict(tip, c, answer, head, fin, seg)
    ensures var h, tx, s', evs := c.hash, s.txs[c.hash], Run(cfg, s, seg).s, Run(cfg, s, seg).evs;
            var n := |tx.transfers|;
            && OthersKept(s, s', h)
            && (answer.Refused? ==> s' == s && evs == [])
            && (answer.NotFound? ==>
                 && IsPending(s', h) && s'.memory == s.memory && s'.txs[h].transfers == tx.transfers
                 && AllSay(evs, EventType.Reorged, tx.transfers, tx.firstSeen, tx.firstSeenBlock, tx.minedAt, tx.blockNum, tx.block, 0, None))
            && (answer.Served? && answer.value.blockHash == tx.block ==>
                 && EndedAs(s', h, EventType.Confirmed)
                 && AllSay(evs, EventType.Confirmed, tx.transfers, tx.firstSeen, tx.firstSeenBlock, tx.minedAt, tx.blockNum, tx.block,
                           head + 1 - tx.blockNum, None))
            && (answer.Served? && answer.value.blockHash != tx.block ==>
                 var r := answer.value;
                 var due := Met(cfg, r.blockNumber, Below(tip, r.blockNumber), fin);
                 && |evs| == 2 * n
                 && AllSay(evs[..n], EventType.Reorged, tx.transfers, tx.firstSeen, tx.firstSeenBlock, tx.minedAt, tx.blockNum, tx.block, 0, None)
                 && AllSay(evs[n..], if r.failed then EventType.Failed else if due then EventType.Confirmed else EventType.Mined,
                           tx.transfers, tx.firstSeen, firstSeenBlock, minedAt, r.blockNumber, r.blockHash, Below(tip, r.blockNumber), None)
                 && (r.failed ==> EndedAs(s', h, EventType.Failed))
                 && (!r.failed && due ==> EndedAs(s', h, EventType.Confirmed))
                 && (!r.failed && !due ==> IsMined(s', h) && s'.txs[h].block == r.blockHash && s'.txs[h].blockNum == r.blockNumber))
  {
    hide Run, Tombstones.Valid, NonceExact, Tombstones.Bury, OnMined, Lifecycle.Confirm, Lifecycle.Demote;
    var h, tx := c.hash, s.txs[c.hash];
    assert TxOk(h, tx);
    firstSeenBlock, minedAt := 0, 0;
    match answer
    case Refused => RunNone(cfg, s);
    case NotFound =>
      assert seg == [seg[0]];
      RunOne(cfg, s, seg[0]);
      DemotionLaw(s, h, seg[0].i.now);
    case Served(r) =>
      if r.blockHash == c.tracked {
        assert seg == [seg[0]];
        RunOne(cfg, s, seg[0]);
        VerificationLaw(s, h, head);
      } else {
        firstSeenBlock, minedAt := MovedLaw(cfg, s, tip, h, r, fin, seg);
      }
  }

  lemma RunNone(cfg: Config, s: State)
    ensures Run(cfg, s, []).s == s && Run(cfg, s, []).evs == []
  {
  }

  lemma MovedLaw(cfg: Config, s: State, tip: Option<HeadRef>, h: Hash, r: Receipt, fin: nat, seg: seq<Act>)
    returns (firstSeenBlock: nat, minedAt: Time)
    requires Inv(s) && IsMined(s, h) && |seg| == 2
    requires seg[0].Took? && seg[0].i.Demoted? && seg[0].i.hash == h && seg[1].Took? && seg[1].i.FoundMined?
    requires seg[1].i == FoundMined(h, r.blockHash, r.blockNumber, [], r.failed, Below(tip, r.blockNumber), fin, seg[1].i.now)
    ensures var tx, s', evs := s.txs[h], Run(cfg, s, seg).s, Run(cfg, s, seg).evs;
            var n, due := |tx.transfers|, Met(cfg, r.blockNumber, Below(tip, r.blockNumber), fin);
            && OthersKept(s, s', h) && |evs| == 2 * n
            && AllSay(evs[..n], EventType.Reorged, tx.transfers, tx.firstSeen, tx.firstSeenBlock, tx.minedAt, tx.blockNum, tx.block, 0, None)
            && AllSay(evs[n..], if r.failed then EventType.Failed else if due then EventType.Confirmed else EventType.Mined,
                      tx.transfers, tx.firstSeen, firstSeenBlock, minedAt, r.blockNumber, r.blockHash, Below(tip, r.blockNumber), None)
            && (r.failed ==> EndedAs(s', h, EventType.Failed))
            && (!r.failed && due ==> EndedAs(s', h, EventType.Confirmed))
            && (!r.failed && !due ==> IsMined(s', h) && s'.txs[h].block == r.blockHash && s'.txs[h].blockNum == r.blockNumber)
  {
    hide Run, Tombstones.Valid, NonceExact, Tombstones.Bury, OnMined, Lifecycle.Demote;
    var tx := s.txs[h];
    assert TxOk(h, tx);
    assert seg == [seg[0], seg[1]];
    RunTwo(cfg, s, seg[0], seg[1]);
    DemotionLaw(s, h, seg[0].i.now);
    DemoteKeepsInv(s, h, seg[0].i.now);
    var (s1, evs1) := Lifecycle.Demote(s, h, seg[0].i.now);
    var firstSeen: Time;
    firstSeen, firstSeenBlock, minedAt :=
      InclusionLaw(cfg, s1, h, r.blockHash, r.blockNumber, [], r.failed, Below(tip, r.blockNumber), fin, seg[1].i.now);
    var evs2 := OnMined(cfg, s1, h, r.blockHash, r.blockNumber, [], r.failed, Below(tip, r.blockNumber), fin, seg[1].i.now).1;
    assert (evs1 + evs2)[..|evs1|] == evs1 && (evs1 + evs2)[|evs1|..] == evs2;
  }

  /** The node's word on a stale pending transaction: still there, it waits on; gone, it is dropped; else nothing. */
  lemma FateLaw(cfg: Config, s: State, h: Hash, presence: Presence, fin: nat, seg: seq<Act>)
    requires Inv(s) && IsPending(s, h) && Fate(h, presence, fin, seg)
    ensures var tx, s', evs := s.txs[h], Run(cfg, s, seg).s, Run(cfg, s, seg).evs;
            && OthersKept(s, s', h)
            && (presence.Unclear? ==> s' == s && evs == [])
            && (presence.InPool? ==> evs == [] && h in s'.txs && s'.txs[h] == tx.(pendingSince := s'.txs[h].pendingSince))
            && (presence.Gone? ==>
                 && EndedAs(s', h, EventType.Dropped)
                 && AllSay(evs, EventType.Dropped, tx.transfers, tx.firstSeen, tx.firstSeenBlock, tx.minedAt, 0, ZERO_HASH, 0, None))
  {
    hide Run, Inv, Lifecycle.OnDropStale;
    RunNone(cfg, s);
    if seg != [] {
      assert seg == [seg[0]];
      RunOne(cfg, s, seg[0]);
      RecheckLaw(s, h, seg[0].i.stillKnown, seg[0].i.now);
    }
  }

  /**
   A stale pending transaction with a receipt: included where the receipt says, at that block's depth below the tip,
   with its native legs and the receipt's, or the legs it had if there are none. Without one: nothing yet.
   */
  lemma PromotionLaw(cfg: Config, s: State, tip: Option<HeadRef>, h: Hash, answer: Answer<Receipt>, fin: nat, seg: seq<Act>)
    returns (firstSeenBlock: nat, minedAt: Time)
    requires Inv(s) && IsPending(s, h) && Promotion(tip, s, h, answer, fin, seg)
    ensures var tx, s', evs := s.txs[h], Run(cfg, s, seg).s, Run(cfg, s, seg).evs;
            && OthersKept(s, s', h)
            && (!answer.Served? ==> s' == s && evs == [])
            && (answer.Served? ==>
                 var r := answer.value;
                 var found := Tracking.Natives(tx.transfers) + r.legs;
                 var legs := if found != [] then found else tx.transfers;
                 var depth := Below(tip, r.blockNumber);
                 var due, proved := Met(cfg, r.blockNumber, depth, fin), found != [] || tx.authoritative;
                 && (r.failed ==>
                      && EndedAs(s', h, EventType.Failed)
                      && AllSay(evs, EventType.Failed, legs, tx.firstSeen, firstSeenBlock, minedAt, r.blockNumber, r.blockHash, depth, None))
                 && (!r.failed && !proved ==> EndedAs(s', h, EventType.Failed) && evs == [])
                 && (!r.failed && proved && due ==>
                      && EndedAs(s', h, EventType.Confirmed)
                      && AllSay(evs, EventType.Confirmed, legs, tx.firstSeen, firstSeenBlock, minedAt, r.blockNumber, r.blockHash, depth, None))
                 && (!r.failed && proved && !due ==>
                      && IsMined(s', h) && s'.txs[h].block == r.blockHash && s'.txs[h].blockNum == r.blockNumber && s'.txs[h].transfers == legs
                      && AllSay(evs, EventType.Mined, legs, tx.firstSeen, firstSeenBlock, minedAt, r.blockNumber, r.blockHash, depth, None)))
  {
    hide Run, Inv, OnMined, Tracking.Natives;
    RunNone(cfg, s);
    firstSeenBlock, minedAt := 0, 0;
    if answer.Served? {
      var r := answer.value;
      assert seg == [seg[0]];
      RunOne(cfg, s, seg[0]);
      NoGrave(s, h);
      var firstSeen: Time;
      firstSeen, firstSeenBlock, minedAt := InclusionLaw(cfg, s, h, r.blockHash, r.blockNumber, Tracking.Natives(s.txs[h].transfers) + r.legs,
                                                        r.failed, Below(tip, r.blockNumber), fin, seg[0].i.now);
    }
  }
}
