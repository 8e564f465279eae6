/**
 The database as a mirror of the tracker: what persisting each input's events keeps, over runs with restarts.

 Writes succeed unless they clash on a primary key, which distinct leg indexes rule out. One instant stands
 for the clock reads of one batch.
 */
module Mirror {
  import opened Types
  import Tombstones
  import opened Lifecycle
  import opened Invariant
  import opened Effects
  import opened Tracking
  import opened Storage

  // ---------------------------------------------------------------- persisting a batch of events

  function EventLegs(group: seq<Event>): seq<Transfer> {
    seq(|group|, i requires 0 <= i < |group| => ExportedLeg(group[i].leg).(txSender := 0, txNonce := 0))
  }

  /** A snapshot of a transaction that ended without ever being stored. */
  function TxFromEvents(group: seq<Event>, now: Time): StoredTx
    requires group != []
  {
    var first := group[0];
    StoredTx(first.TxHash(),
             Head(first.typ, first.blockHash, first.blockNumber, first.firstSeen, first.firstSeenBlock,
                  if first.minedAt != NO_TIME then first.minedAt else if first.blockNumber != 0 then now else NO_TIME,
                  first.firstSeen, 0, 0, false, true, first.replacedBy),
             EventLegs(group))
  }

  /** A snapshot made from events: the first one's type, position and times, and every event's leg. */
  lemma TxFromEventsMeans(group: seq<Event>, now: Time, i: nat)
    requires i < |group|
    ensures var x, e := TxFromEvents(group, now), group[0];
            && x.hash == e.leg.txHash && x.head.status == e.typ && x.head.block == e.blockHash && x.head.blockNum == e.blockNumber
            && x.head.firstSeen == e.firstSeen && x.head.firstSeenBlock == e.firstSeenBlock && x.head.pendingSince == e.firstSeen
            && (e.minedAt != NO_TIME ==> x.head.minedAt == e.minedAt)
            && (e.minedAt == NO_TIME && e.blockNumber != 0 ==> x.head.minedAt == now)
            && (e.minedAt == NO_TIME && e.blockNumber == 0 ==> x.head.minedAt == NO_TIME)
            && x.head.authoritative && !x.head.hasNonce && x.head.sender == 0 && x.head.nonce == 0 && x.head.replacedBy == e.replacedBy
            && |x.transfers| == |group|
    ensures var t, leg := TxFromEvents(group, now).transfers[i], group[i].leg;
            && t.logIndex == leg.logIndex && t.txSender == 0 && t.txNonce == 0
            && t.leg.from == leg.from && t.leg.to == leg.to && t.leg.direction == leg.direction && t.leg.asset == leg.asset
            && t.leg.token == leg.token && t.leg.decimals == leg.decimals && t.leg.value == leg.value
  {
  }

  ghost predicate HasRows(rows: map<RowKey, Row>, indexer: nat, h: Hash) {
    exists k :: k in rows && Owns(k, indexer, h)
  }

  ghost predicate SameRows(rows: map<RowKey, Row>, rows': map<RowKey, Row>, indexer: nat, h: Hash) {
    forall k :: Owns(k, indexer, h) ==> (k in rows <==> k in rows') && (k in rows ==> rows'[k] == rows[k])
  }

  /** The rows are those of `tx`, written at `now`; or untouched, if two of its legs clash. */
  ghost predicate Saved(rows: map<RowKey, Row>, rows': map<RowKey, Row>, indexer: nat, tx: StoredTx, now: Time) {
    if DistinctIndexes(tx.transfers) then Holds(rows', indexer, tx, now) else SameRows(rows, rows', indexer, tx.hash)
  }

  /** The rows as before, under the status of `last`. */
  ghost predicate Marked(rows: map<RowKey, Row>, rows': map<RowKey, Row>, indexer: nat, h: Hash, last: Event, now: Time) {
    forall k :: Owns(k, indexer, h) ==>
      && (k in rows <==> k in rows')
      && (k in rows ==> rows'[k] == Row(rows[k].head.(status := last.typ, replacedBy := last.replacedBy), rows[k].leg, now))
  }

  /**
   One transaction's rows after persisting `own`, its events of the batch: nothing without events, a full
   snapshot while tracked, and otherwise the final status, on its rows or on rows made from the events.
   */
  ghost predicate Persisted(rows: map<RowKey, Row>, rows': map<RowKey, Row>, indexer: nat, s: State, h: Hash,
                            own: seq<Event>, now: Time)
  {
    if own == [] then SameRows(rows, rows', indexer, h)
    else if h in s.txs then Saved(rows, rows', indexer, Exported(s.txs[h]), now)
    else if HasRows(rows, indexer, h) then Marked(rows, rows', indexer, h, own[|own| - 1], now)
    else Saved(rows, rows', indexer, TxFromEvents(own, now), now)
  }

  ghost predicate BatchPersisted(rows: map<RowKey, Row>, rows': map<RowKey, Row>, indexer: nat, s: State, evs: seq<Event>, now: Time) {
    && (forall h :: Persisted(rows, rows', indexer, s, h, EventsFor(evs, h), now))
    && (forall k: RowKey :: k.indexer != indexer ==> (k in rows <==> k in rows') && (k in rows ==> rows'[k] == rows[k]))
  }

  /**
   A batch, row by row. A transaction without an event keeps its rows. One that is tracked has a row for each leg, with
   its snapshot, unless two legs clash. One that is over keeps its rows under the last event's type and winner;
   without rows it gets one for each event, with that event's leg.
   */
  lemma BatchMeans(rows: map<RowKey, Row>, rows': map<RowKey, Row>, indexer: nat, s: State, evs: seq<Event>, now: Time,
                   h: Hash, index: int, i: nat)
    requires BatchPersisted(rows, rows', indexer, s, evs, now) && Filed(s)
    ensures var k, own := RowKey(indexer, h, index), EventsFor(evs, h);
            && (own == [] ==> (k in rows' <==> k in rows) && (k in rows ==> rows'[k] == rows[k]))
            && (own != [] && h !in s.txs && k in rows ==>
                 && k in rows' && rows'[k].leg == rows[k].leg && rows'[k].updatedAt == now
                 && rows'[k].head == rows[k].head.(status := own[|own| - 1].typ, replacedBy := own[|own| - 1].replacedBy))
    ensures EventsFor(evs, h) != [] && h in s.txs && i < |s.txs[h].transfers| && DistinctLegs(s.txs[h].transfers) ==>
              WrittenLeg(rows', indexer, h, s.txs[h].transfers[i], Exported(s.txs[h]).head, now)
    ensures EventsFor(evs, h) != [] && h !in s.txs && !HasRows(rows, indexer, h) && i < |EventsFor(evs, h)|
            && DistinctIndexes(EventLegs(EventsFor(evs, h))) ==>
              WrittenLeg(rows', indexer, h, EventsFor(evs, h)[i].leg, TxFromEvents(EventsFor(evs, h), now).head, now)
  {
    hide EventsFor, DistinctIndexes;
    var own := EventsFor(evs, h);
    assert Persisted(rows, rows', indexer, s, h, own, now);
    if own != [] {
      OwnOnly(evs, h);
      if h in s.txs {
        if DistinctLegs(s.txs[h].transfers) && i < |s.txs[h].transfers| { LegWritten(rows', indexer, Exported(s.txs[h]), now, i); }
      } else if HasRows(rows, indexer, h) {
        assert Owns(RowKey(indexer, h, index), indexer, h);
      } else if DistinctIndexes(EventLegs(own)) && i < |own| {
        LegWritten(rows', indexer, TxFromEvents(own, now), now, i);
      }
    } else {
      assert Owns(RowKey(indexer, h, index), indexer, h);
    }
  }

  /** The leg's row, filed under its log index, or -1 without one. */
  ghost predicate WrittenLeg(rows: map<RowKey, Row>, indexer: nat, h: Hash, leg: Match, head: Head, now: Time) {
    var k := RowKey(indexer, h, if leg.logIndex.Some? then leg.logIndex.value else -1);
    && k in rows
    && rows[k] == Row(head, Leg(leg.from, leg.to, leg.direction, leg.asset, leg.token, leg.decimals, leg.value), now)
  }

  lemma LegWritten(rows: map<RowKey, Row>, indexer: nat, tx: StoredTx, now: Time, i: nat)
    requires Holds(rows, indexer, tx, now) && i < |tx.transfers|
    ensures var k := RowKey(indexer, tx.hash, IndexOf(tx.transfers[i])); k in rows && rows[k] == Row(tx.head, tx.transfers[i].leg, now)
  {
    assert KeyAt(indexer, tx, i) == RowKey(indexer, tx.hash, IndexOf(tx.transfers[i]));
  }

  /** Entries are filed under their own hash. */
  ghost predicate Filed(s: State) {
    forall h :: h in s.txs ==> s.txs[h].hash == h
  }

  /** Saves the latest state of every transaction a batch of events touched. */
  method PersistEvents(table: Table, tracker: Tracker, indexer: nat, evs: seq<Event>, now: Time)
    requires table.Valid() && tracker.Valid() && {table as object} !! {tracker as object} + set o: object | o in tracker.txs.Values
    modifies table
    ensures table.Valid()
    ensures BatchPersisted(old(table.rows), table.rows, indexer, tracker.View(), evs, now)
  {
    hide Persisted, Halfway, EventsFor, Filed;
    var byHash, order := GroupByHash(evs);
    ghost var rows0 := table.rows;
    ghost var s := tracker.View();
    FiledNow(tracker);
    NothingYet(rows0, indexer, s, evs, now);
    assert order[..0] == [];
    for i := 0 to |order|
      invariant table.Valid() && tracker.Valid() && tracker.View() == s
      invariant Halfway(rows0, table.rows, indexer, s, evs, now, order[..i])
    {
      var h := order[i];
      ghost var before := table.rows;
      PersistOne(table, tracker, indexer, h, byHash[h], now);
      assert h !in order[..i];
      assert order[..i + 1] == order[..i] + [h];
      OneMore(rows0, before, table.rows, indexer, s, evs, now, order[..i], h);
    }
    assert order[..|order|] == order;
    AllDone(rows0, table.rows, indexer, s, evs, now, order);
  }

  lemma FiledNow(tracker: Tracker)
    requires tracker.Valid()
    ensures Filed(tracker.View())
  {
  }

  /** The transactions in `done` are persisted, nothing else was written. */
  ghost predicate Halfway(rows0: map<RowKey, Row>, rows: map<RowKey, Row>, indexer: nat, s: State, evs: seq<Event>, now: Time,
                          done: seq<Hash>)
  {
    && (forall h :: h in done ==> Persisted(rows0, rows, indexer, s, h, EventsFor(evs, h), now))
    && (forall k: RowKey :: k.indexer != indexer || k.hash !in done ==>
          (k in rows0 <==> k in rows) && (k in rows0 ==> rows[k] == rows0[k]))
  }

  lemma NothingYet(rows: map<RowKey, Row>, indexer: nat, s: State, evs: seq<Event>, now: Time)
    ensures Halfway(rows, rows, indexer, s, evs, now, [])
  {
  }

  lemma OneMore(rows0: map<RowKey, Row>, before: map<RowKey, Row>, rows: map<RowKey, Row>, indexer: nat, s: State,
                evs: seq<Event>, now: Time, done: seq<Hash>, h: Hash)
    requires Halfway(rows0, before, indexer, s, evs, now, done) && h !in done && Filed(s)
    requires EventsFor(evs, h) != [] && Persisted(before, rows, indexer, s, h, EventsFor(evs, h), now)
    requires OthersKept(before, rows, indexer, h)
    ensures Halfway(rows0, rows, indexer, s, evs, now, done + [h])
  {
    hide Persisted, EventsFor, Filed;
    OwnOnly(evs, h);
    FirstTouch(rows0, before, rows, indexer, s, h, EventsFor(evs, h), now);
    forall g | g in done ensures Persisted(rows0, rows, indexer, s, g, EventsFor(evs, g), now) {
      OwnOnly(evs, g);
      StaysPersisted(rows0, before, rows, indexer, s, g, h, EventsFor(evs, g), now);
    }
  }

  lemma {:induction false} OwnOnly(evs: seq<Event>, h: Hash)
    ensures forall e :: e in EventsFor(evs, h) ==> e.TxHash() == h
  {
    if evs == [] {
    } else {
      OwnOnly(evs[1..], h);
    }
  }

  lemma AllDone(rows0: map<RowKey, Row>, rows: map<RowKey, Row>, indexer: nat, s: State, evs: seq<Event>, now: Time,
                order: seq<Hash>)
    requires Halfway(rows0, rows, indexer, s, evs, now, order)
    requires forall h :: h !in order ==> EventsFor(evs, h) == []
    ensures BatchPersisted(rows0, rows, indexer, s, evs, now)
  {
  }

  /** The transactions of a batch in the order of their first events. */
  function FirstSeen(evs: seq<Event>): seq<Hash> {
    if evs == [] then []
    else
      var before, h := FirstSeen(evs[..|evs| - 1]), evs[|evs| - 1].TxHash();
      if h in before then before else before + [h]
  }

  /** A transaction is listed once, behind those whose first events came earlier. */
  lemma FirstSeenMeans(evs: seq<Event>, e: Event)
    ensures FirstSeen([]) == []
    ensures FirstSeen(evs + [e]) == if e.leg.txHash in FirstSeen(evs) then FirstSeen(evs) else FirstSeen(evs) + [e.leg.txHash]
  {
    assert (evs + [e])[..|evs|] == evs;
  }

  /** One group per transaction, in first-event order. */
  method GroupByHash(evs: seq<Event>) returns (byHash: map<Hash, seq<Event>>, order: seq<Hash>)
    ensures order == FirstSeen(evs)
    ensures NoDup(order) && forall h :: h in order <==> h in byHash
    ensures forall h :: EventsFor(evs, h) == if h in byHash then byHash[h] else []
    ensures forall h :: h in byHash ==> byHash[h] != [] && forall e :: e in byHash[h] ==> e.TxHash() == h
  {
    hide NoDup, EventsFor;
    byHash, order := map[], [];
    NothingYetGrouped();
    for i := 0 to |evs|
      invariant order == FirstSeen(evs[..i])
      invariant NoDup(order) && forall h :: h in order <==> h in byHash
      invariant forall h :: EventsFor(evs[..i], h) == if h in byHash then byHash[h] else []
      invariant forall h :: h in byHash ==> byHash[h] != [] && forall e :: e in byHash[h] ==> e.TxHash() == h
    {
      var h := evs[i].TxHash();
      GroupGrows(evs, i);
      assert evs[..i + 1][..i] == evs[..i];
      if h !in byHash {
        AppendNew(order, h);
        order := order + [h];
        byHash := byHash[h := []];
      }
      byHash := byHash[h := byHash[h] + [evs[i]]];
    }
    assert evs[..|evs|] == evs;
  }

  lemma NothingYetGrouped()
    ensures NoDup([]) && forall h :: EventsFor([], h) == []
  {
  }

  lemma AppendNew(order: seq<Hash>, h: Hash)
    requires NoDup(order) && h !in order
    ensures NoDup(order + [h])
  {
  }

  lemma GroupGrows(evs: seq<Event>, i: nat)
    requires i < |evs|
    ensures forall g :: EventsFor(evs[..i + 1], g) == EventsFor(evs[..i], g) + if g == evs[i].TxHash() then [evs[i]] else []
  {
    forall g ensures EventsFor(evs[..i + 1], g) == EventsFor(evs[..i], g) + if g == evs[i].TxHash() then [evs[i]] else [] {
      assert evs[..i + 1] == evs[..i] + [evs[i]];
      EventsForConcat(evs[..i], [evs[i]], g);
      EventsForSame([evs[i]], evs[i].TxHash(), g);
    }
  }

  method PersistOne(table: Table, tracker: Tracker, indexer: nat, h: Hash, group: seq<Event>, now: Time)
    requires table.Valid() && tracker.Valid() && {table as object} !! {tracker as object} + set o: object | o in tracker.txs.Values
    requires group != [] && forall e :: e in group ==> e.TxHash() == h
    modifies table
    ensures table.Valid()
    ensures Persisted(old(table.rows), table.rows, indexer, tracker.View(), h, group, now)
    ensures OthersKept(old(table.rows), table.rows, indexer, h)
  {
    var snap := tracker.ExportTx(h);
    if snap.Some? {
      assert tracker.View().txs[h].hash == h;
      var ok := table.SaveTransaction(indexer, snap.value, now);
    } else {
      var last := group[|group| - 1];
      var updated := table.UpdateTransactionStatus(indexer, h, last.typ, last.replacedBy, now);
      if !updated {
        assert group[0] in group;
        var ok := table.SaveTransaction(indexer, TxFromEvents(group, now), now);
      }
    }
  }

  /** Persisting `h` for the first time in a batch, with other transactions written before it. */
  lemma FirstTouch(rows0: map<RowKey, Row>, before: map<RowKey, Row>, rows: map<RowKey, Row>, indexer: nat, s: State, h: Hash,
                   own: seq<Event>, now: Time)
    requires SameRows(rows0, before, indexer, h) && Filed(s)
    requires own != [] && forall e :: e in own ==> e.TxHash() == h
    requires Persisted(before, rows, indexer, s, h, own, now)
    ensures Persisted(rows0, rows, indexer, s, h, own, now)
  {
    assert own[0] in own;
    assert HasRows(rows0, indexer, h) <==> HasRows(before, indexer, h) by {
      if HasRows(rows0, indexer, h) {
        var k :| k in rows0 && Owns(k, indexer, h);
        assert k in before;
      }
      if HasRows(before, indexer, h) {
        var k :| k in before && Owns(k, indexer, h);
        assert k in rows0;
      }
    }
  }

  /** Persisting `h` leaves what was persisted for `g`. */
  lemma StaysPersisted(rows0: map<RowKey, Row>, before: map<RowKey, Row>, rows: map<RowKey, Row>, indexer: nat, s: State,
                       g: Hash, h: Hash, own: seq<Event>, now: Time)
    requires g != h && OthersKept(before, rows, indexer, h) && Filed(s)
    requires forall e :: e in own ==> e.TxHash() == g
    requires Persisted(rows0, before, indexer, s, g, own, now)
    ensures Persisted(rows0, rows, indexer, s, g, own, now)
  {
    forall k | Owns(k, indexer, g) ensures !Owns(k, indexer, h) {
    }
    if own != [] { assert own[0] in own; }
    if own != [] && g in s.txs {
      HoldsStill(before, rows, indexer, Exported(s.txs[g]), now);
    } else if own != [] {
      HoldsStill(before, rows, indexer, TxFromEvents(own, now), now);
    }
  }

  lemma HoldsStill(rows: map<RowKey, Row>, rows': map<RowKey, Row>, indexer: nat, tx: StoredTx, now: Time)
    requires SameRows(rows, rows', indexer, tx.hash)
    ensures Holds(rows, indexer, tx, now) ==> Holds(rows', indexer, tx, now)
  {
    if Holds(rows, indexer, tx, now) {
      forall i | 0 <= i < |tx.transfers|
        ensures KeyAt(indexer, tx, i) in rows' && rows'[KeyAt(indexer, tx, i)] == Row(tx.head, tx.transfers[i].leg, now)
      {
        assert KeyAt(indexer, tx, i) in rows;
      }
    }
  }

  // ---------------------------------------------------------------- the mirror

  ghost predicate DistinctLegs(legs: seq<Match>) {
    DistinctIndexes(ExportedLegs(legs))
  }

  ghost predicate LegsDistinct(s: State) {
    forall h :: h in s.txs ==> DistinctLegs(s.txs[h].transfers)
  }

  /** What the sources of an input guarantee about its legs: no two share a log index. */
  ghost predicate DistinctInput(i: Input) {
    match i
    case SeenPending(matches, _) => DistinctLegs(matches)
    case FoundMined(_, _, _, transfers, _, _, _, _) => DistinctLegs(transfers)
    case _ => true
  }

  /** The rows of `tx` are its snapshot, except that the stored pending timer may be an older one. */
  ghost predicate Mirrored(rows: map<RowKey, Row>, indexer: nat, tx: Tx) {
    exists since, now :: Holds(rows, indexer, Exported(tx.(pendingSince := since)), now)
  }

  ghost predicate HasActive(rows: map<RowKey, Row>, indexer: nat, h: Hash) {
    exists k :: k in rows && Owns(k, indexer, h) && Active(rows[k].head.status)
  }

  /** Active rows nobody tracks: a pending calldata guess that mined without delivering anything. */
  ghost predicate Orphan(rows: map<RowKey, Row>, indexer: nat, s: State, h: Hash) {
    HasActive(rows, indexer, h) && h !in s.txs
  }

  /** The active rows of `h` are the snapshot of some well-formed transaction. */
  ghost predicate Restorable(rows: map<RowKey, Row>, indexer: nat, h: Hash) {
    exists tx :: TxOk(h, tx) && DistinctLegs(tx.transfers) && Mirrored(rows, indexer, tx)
  }

  /** Tracker and table agree: every tracked transaction is mirrored, and every active row can be restored. */
  ghost predicate Agree(rows: map<RowKey, Row>, indexer: nat, s: State) {
    && Inv(s) && LegsDistinct(s)
    && (forall h :: h in s.txs ==> Mirrored(rows, indexer, s.txs[h]))
    && (forall h :: HasActive(rows, indexer, h) ==> Restorable(rows, indexer, h))
  }

  /** `h` was dropped without an event: pending, never authoritative, and mined without a delivery. */
  ghost predicate SilentlyForgotten(s: State, s': State, evs: seq<Event>, h: Hash) {
    IsPending(s, h) && !s.txs[h].authoritative && h !in s'.txs && EventsFor(evs, h) == []
  }

  // ---------------------------------------------------------------- legs stay distinct

  lemma {:induction false} ReplaceAllDistinct(s: State, occupants: seq<Hash>, winner: Hash)
    requires LegsDistinct(s)
    ensures LegsDistinct(ReplaceAll(s, occupants, winner).0)
  {
    hide Tombstones.Bury, DistinctLegs;
    if occupants == [] {
    } else {
      ReplaceAllDistinct(s, occupants[..|occupants| - 1], winner);
    }
  }

  lemma {:induction false} OnReorgDistinct(s: State, ancestor: nat, order: seq<Hash>, now: Time)
    requires LegsDistinct(s)
    ensures LegsDistinct(OnReorg(s, ancestor, order, now).0)
  {
    hide DistinctLegs;
    if order == [] {
    } else {
      OnReorgDistinct(s, ancestor, order[..|order| - 1], now);
    }
  }

  lemma OnMinedDistinct(cfg: Config, s: State, hash: Hash, block: Hash, blockNum: nat, transfers: seq<Match>,
                        failed: bool, confirmations: nat, finalized: nat, now: Time)
    requires LegsDistinct(s) && DistinctLegs(transfers)
    ensures LegsDistinct(OnMined(cfg, s, hash, block, blockNum, transfers, failed, confirmations, finalized, now).0)
  {
    hide Tombstones.Bury, Tombstones.Clear, Unindex;
    assert DistinctLegs([]);
  }

  lemma StepKeepsDistinct(cfg: Config, s: State, i: Input)
    requires LegsDistinct(s) && DistinctInput(i)
    ensures LegsDistinct(Step(cfg, s, i).0)
  {
    hide Tombstones.Bury, Tombstones.Clear, Unindex, Index, DistinctLegs;
    match i
    case SeenPending(matches, now) =>
    case FoundMined(hash, block, num, transfers, failed, conf, fin, now) =>
      OnMinedDistinct(cfg, s, hash, block, num, transfers, failed, conf, fin, now);
    case Verified(hash, head) =>
    case Rechecked(hash, still, now) =>
    case NonceUsed(sender, nonce, winner) => ReplaceAllDistinct(s, Occupants(s.byNonce, NonceKey(sender, nonce)), winner);
    case ForkedAt(ancestor, order, now) => OnReorgDistinct(s, ancestor, order, now);
    case Demoted(hash, now) =>
  }

  // ---------------------------------------------------------------- one input keeps the mirror

  lemma SameRowsMirrored(rows: map<RowKey, Row>, rows': map<RowKey, Row>, indexer: nat, tx: Tx)
    requires SameRows(rows, rows', indexer, tx.hash) && Mirrored(rows, indexer, tx)
    ensures Mirrored(rows', indexer, tx)
  {
    hide Holds;
    var since, now :| Holds(rows, indexer, Exported(tx.(pendingSince := since)), now);
    HoldsStill(rows, rows', indexer, Exported(tx.(pendingSince := since)), now);
  }

  lemma SameRowsActive(rows: map<RowKey, Row>, rows': map<RowKey, Row>, indexer: nat, h: Hash)
    requires SameRows(rows, rows', indexer, h)
    ensures HasActive(rows, indexer, h) <==> HasActive(rows', indexer, h)
    ensures Restorable(rows, indexer, h) ==> Restorable(rows', indexer, h)
  {
    if HasActive(rows, indexer, h) {
      var k :| k in rows && Owns(k, indexer, h) && Active(rows[k].head.status);
      assert k in rows';
    }
    if HasActive(rows', indexer, h) {
      var k :| k in rows' && Owns(k, indexer, h) && Active(rows'[k].head.status);
      assert k in rows;
    }
    if Restorable(rows, indexer, h) {
      var tx :| TxOk(h, tx) && DistinctLegs(tx.transfers) && Mirrored(rows, indexer, tx);
      SameRowsMirrored(rows, rows', indexer, tx);
    }
  }

  /** A final status leaves no active row. */
  lemma EndedInactive(rows: map<RowKey, Row>, rows': map<RowKey, Row>, indexer: nat, s: State, h: Hash, own: seq<Event>, now: Time)
    requires own != [] && h !in s.txs && Persisted(rows, rows', indexer, s, h, own, now)
    requires own[0].TxHash() == h && !Active(own[0].typ) && !Active(own[|own| - 1].typ)
    ensures !HasActive(rows', indexer, h)
  {
    forall k | k in rows' && Owns(k, indexer, h) ensures !Active(rows'[k].head.status) {
      if !HasRows(rows, indexer, h) { EndedFresh(rows, rows', indexer, h, own, now, k); }
    }
  }

  lemma EndedFresh(rows: map<RowKey, Row>, rows': map<RowKey, Row>, indexer: nat, h: Hash, own: seq<Event>, now: Time, k: RowKey)
    requires own != [] && own[0].TxHash() == h && !HasRows(rows, indexer, h)
    requires Saved(rows, rows', indexer, TxFromEvents(own, now), now)
    requires k in rows' && Owns(k, indexer, h)
    ensures rows'[k].head.status == own[0].typ
  {
    var tx := TxFromEvents(own, now);
    if DistinctIndexes(tx.transfers) {
      var i :| 0 <= i < |tx.transfers| && KeyAt(indexer, tx, i) == k;
      assert rows'[k] == Row(tx.head, tx.transfers[i].leg, now);
    }
  }

  /** What one input and the persisting of its events do to one transaction's rows. */
  lemma MirrorOne(rows: map<RowKey, Row>, rows': map<RowKey, Row>, indexer: nat, s: State, s': State, evs: seq<Event>,
                  h: Hash, now: Time)
    requires Effect(s, s', evs, h) && Persisted(rows, rows', indexer, s', h, EventsFor(evs, h), now)
    requires h in s.txs ==> s.txs[h].hash == h && Mirrored(rows, indexer, s.txs[h])
    requires h in s'.txs ==> TxOk(h, s'.txs[h]) && DistinctLegs(s'.txs[h].transfers)
    requires HasActive(rows, indexer, h) ==> Restorable(rows, indexer, h)
    ensures h in s'.txs ==> Mirrored(rows', indexer, s'.txs[h])
    ensures HasActive(rows', indexer, h) ==> Restorable(rows', indexer, h)
    ensures Orphan(rows', indexer, s', h) ==> Orphan(rows, indexer, s, h) || SilentlyForgotten(s, s', evs, h)
  {
    hide Holds, BuriedAs, Ages, ConfirmedGrave;
    var own := EventsFor(evs, h);
    if own == [] {
      SameRowsActive(rows, rows', indexer, h);
      if h in s'.txs {
        var since, at :| Holds(rows, indexer, Exported(s.txs[h].(pendingSince := since)), at);
        assert s.txs[h].(pendingSince := since) == s'.txs[h].(pendingSince := since);
        SameRowsMirrored(rows, rows', indexer, s'.txs[h]);
      }
    } else if h in s'.txs {
      var tx := s'.txs[h];
      assert tx.(pendingSince := tx.pendingSince) == tx;
      assert Holds(rows', indexer, Exported(tx.(pendingSince := tx.pendingSince)), now);
      assert Mirrored(rows', indexer, tx);
    } else {
      OwnOnly(evs, h);
      assert own[0] in own;
      EndedInactive(rows, rows', indexer, s', h, own, now);
    }
  }

  /** Every input keeps tracker and table in agreement, and orphans arise only by silent forgetting. */
  lemma StepMirrors(cfg: Config, rows: map<RowKey, Row>, rows': map<RowKey, Row>, indexer: nat, s: State, i: Input, now: Time)
    requires Agree(rows, indexer, s) && WellFormed(s, i) && DistinctInput(i)
    requires var (s', evs) := Step(cfg, s, i); BatchPersisted(rows, rows', indexer, s', evs, now)
    ensures var (s', evs) := Step(cfg, s, i);
            && Agree(rows', indexer, s')
            && forall h :: Orphan(rows', indexer, s', h) ==> Orphan(rows, indexer, s, h) || SilentlyForgotten(s, s', evs, h)
  {
    hide Persisted, Mirrored, Restorable, HasActive, Step, Effect, WellFormed, DistinctInput, DistinctLegs, TxOk, SilentlyForgotten;
    var (s', evs) := Step(cfg, s, i);
    StepKeepsInv(cfg, s, i);
    StepKeepsDistinct(cfg, s, i);
    InvFiles(s);
    forall h
      ensures h in s'.txs ==> Mirrored(rows', indexer, s'.txs[h])
      ensures HasActive(rows', indexer, h) ==> Restorable(rows', indexer, h)
      ensures Orphan(rows', indexer, s', h) ==> Orphan(rows, indexer, s, h) || SilentlyForgotten(s, s', evs, h)
    {
      StepEffect(cfg, s, i, h);
      MirrorOne(rows, rows', indexer, s, s', evs, h, now);
    }
  }

  lemma InvFiles(s: State)
    requires Inv(s)
    ensures Filed(s)
  {
    forall h | h in s.txs ensures s.txs[h].hash == h { TxFacts(s, h); }
  }

  // ---------------------------------------------------------------- restart

  /** The transaction as restored: all but the pending timer, with its legs in index order under its own sender and nonce. */
  ghost predicate Recovered(tx: Tx, r: Tx) {
    && r == tx.(pendingSince := r.pendingSince, transfers := r.transfers)
    && |r.transfers| == |tx.transfers| && IndexSorted(ExportedLegs(r.transfers))
    && (forall i :: 0 <= i < |tx.transfers| ==> tx.transfers[i].(txSender := tx.sender, txNonce := tx.nonce) in r.transfers)
  }

  lemma ReassembledRecovers(h: Hash, tx: Tx, since: Time, loaded: StoredTx)
    requires Reassembled(Exported(tx.(pendingSince := since)), loaded) && TxOk(h, tx)
    ensures Active(loaded.head.status) && Recovered(tx, Imported(loaded))
  {
    var stored, r := Exported(tx.(pendingSince := since)), Imported(loaded);
    ImportedIndexes(loaded);
    forall i | 0 <= i < |tx.transfers| ensures tx.transfers[i].(txSender := tx.sender, txNonce := tx.nonce) in r.transfers {
      assert tx.transfers[i].txHash == h;
      assert Restamped(stored, stored.transfers[i]) in loaded.transfers;
      var p :| 0 <= p < |loaded.transfers| && loaded.transfers[p] == Restamped(stored, stored.transfers[i]);
      assert r.transfers[p] == tx.transfers[i].(txSender := tx.sender, txNonce := tx.nonce);
    }
  }

  /** Restoring a loaded copy of a mirrored transaction recovers it. */
  lemma MirroredRecovers(rows: map<RowKey, Row>, indexer: nat, out: seq<StoredTx>, h: Hash, tx: Tx) returns (j: nat)
    requires Loaded(rows, indexer, out) && Mirrored(rows, indexer, tx) && TxOk(h, tx) && DistinctLegs(tx.transfers)
    ensures j < |out| && out[j].hash == h && Active(out[j].head.status) && Recovered(tx, Imported(out[j]))
  {
    hide Loaded, Holds, Recovered, Reassembled, DistinctIndexes;
    var since, now :| Holds(rows, indexer, Exported(tx.(pendingSince := since)), now);
    var stored := Exported(tx.(pendingSince := since));
    RowRoundTrip(rows, indexer, stored, now, out);
    j :| 0 <= j < |out| && Reassembled(stored, out[j]);
    ReassembledHash(stored, out[j]);
    ReassembledRecovers(h, tx, since, out[j]);
  }

  lemma ReassembledHash(stored: StoredTx, loaded: StoredTx)
    requires Reassembled(stored, loaded)
    ensures loaded.hash == stored.hash
  {
  }

  lemma ImportedIndexes(stx: StoredTx)
    ensures ExportedLegs(Imported(stx).transfers) == stx.transfers
  {
  }

  lemma RecoveredOk(h: Hash, tx: Tx, r: Tx)
    requires TxOk(h, tx) && Recovered(tx, r) && LegsOf(r.transfers, h)
    ensures TxOk(h, r) && DistinctLegs(r.transfers)
  {
    forall i, j | 0 <= i < j < |r.transfers| ensures IndexOf(ExportedLegs(r.transfers)[i]) != IndexOf(ExportedLegs(r.transfers)[j]) {
    }
  }

  /** A stored transaction's rows are also those of its loaded copy. */
  lemma LoadedHolds(rows: map<RowKey, Row>, indexer: nat, out: seq<StoredTx>, j: nat, stored: StoredTx, now: Time)
    requires Loaded(rows, indexer, out) && j < |out| && Holds(rows, indexer, stored, now)
    requires stored.hash == out[j].hash && Active(stored.head.status)
    ensures Holds(rows, indexer, stored.(transfers := out[j].transfers), now)
  {
    var again := stored.(transfers := out[j].transfers);
    assert TxLoaded(rows, indexer, out[j]);
    forall p | 0 <= p < |again.transfers|
      ensures KeyAt(indexer, again, p) in rows && rows[KeyAt(indexer, again, p)] == Row(again.head, again.transfers[p].leg, now)
    {
      var k := KeyAt(indexer, out[j], p);
      assert k in rows && Owns(k, indexer, stored.hash);
      var i :| 0 <= i < |stored.transfers| && KeyAt(indexer, stored, i) == k;
      assert rows[k] == Row(stored.head, stored.transfers[i].leg, now);
    }
    forall k | k in rows && Owns(k, indexer, stored.hash) ensures exists p :: 0 <= p < |again.transfers| && KeyAt(indexer, again, p) == k {
      var i :| 0 <= i < |stored.transfers| && KeyAt(indexer, stored, i) == k;
      assert rows[k] == Row(stored.head, stored.transfers[i].leg, now);
      FoundAt(rows, indexer, out, j, k);
      var p :| 0 <= p < |out[j].transfers| && KeyAt(indexer, out[j], p) == k;
      assert KeyAt(indexer, again, p) == k;
    }
  }

  /** A loaded transaction's own rows are its snapshot: reading does not disturb the mirror. */
  lemma LoadedMirrored(rows: map<RowKey, Row>, indexer: nat, out: seq<StoredTx>, j: nat, tx: Tx)
    requires Loaded(rows, indexer, out) && j < |out| && Mirrored(rows, indexer, tx) && tx.hash == out[j].hash
    requires Recovered(tx, Imported(out[j]))
    ensures Mirrored(rows, indexer, Imported(out[j]))
  {
    hide Loaded, Holds, IndexSorted;
    var since, now :| Holds(rows, indexer, Exported(tx.(pendingSince := since)), now);
    var r := Imported(out[j]);
    LoadedHolds(rows, indexer, out, j, Exported(tx.(pendingSince := since)), now);
    ImportedIndexes(out[j]);
    assert Exported(r.(pendingSince := since)) == Exported(tx.(pendingSince := since)).(transfers := out[j].transfers);
  }

  lemma RestoreOne(txs: map<Hash, Tx>, byNonce: map<NonceKey, seq<Hash>>, tx: Tx)
    requires NonceExact(txs, byNonce) && tx.hash !in txs
    ensures NonceExact(txs[tx.hash := tx], if tx.state.InMempool? then Index(byNonce, tx) else byNonce)
  {
    hide Index, NonceExact;
    if tx.state.InMempool? {
      IndexExact(txs, byNonce, tx);
    } else {
      UntouchedExact(txs, byNonce, tx.hash, txs[tx.hash := tx]);
    }
  }

  ghost predicate DistinctHashes(out: seq<StoredTx>) {
    forall i, j :: 0 <= i < j < |out| ==> out[i].hash != out[j].hash
  }

  lemma LaterHash(out: seq<StoredTx>, n: nat)
    requires 1 <= n <= |out| && DistinctHashes(out)
    ensures forall i :: 0 <= i < n - 1 ==> out[i].hash != out[n - 1].hash
    ensures Imported(out[n - 1]).hash == out[n - 1].hash
  {
  }

  /** Restoring a prefix of the loaded transactions: exactly they are tracked, and the nonce index is exact. */
  lemma {:induction false} ImportExact(out: seq<StoredTx>, n: nat)
    requires n <= |out| && DistinctHashes(out)
    requires forall i :: 0 <= i < |out| ==> Active(out[i].head.status)
    ensures var s := ImportAll(FRESH, out[..n]);
            && (forall i :: 0 <= i < n ==> out[i].hash in s.txs && s.txs[out[i].hash] == Imported(out[i]))
            && (forall h :: h in s.txs ==> exists i :: 0 <= i < n && out[i].hash == h)
            && NonceExact(s.txs, s.byNonce) && s.memory == Tombstones.EMPTY
  {
    hide NonceExact, Index, Imported, DistinctHashes, Active;
    if n == 0 {
      FreshExact();
    } else {
      ImportExact(out, n - 1);
      assert out[..n][..n - 1] == out[..n - 1];
      var s := ImportAll(FRESH, out[..n - 1]);
      LaterHash(out, n);
      RestoreOne(s.txs, s.byNonce, Imported(out[n - 1]));
    }
  }

  function ExportedAll(s: State, order: seq<Hash>): seq<StoredTx>
    requires forall h :: h in order ==> h in s.txs
  {
    seq(|order|, i requires 0 <= i < |order| => var h := order[i]; assert h in order; Exported(s.txs[h]))
  }

  lemma ExportedBack(h: Hash, tx: Tx)
    requires TxOk(h, tx)
    ensures Imported(Exported(tx)) == tx && Active(Exported(tx).head.status) && Exported(tx).hash == h
  {
    forall i | 0 <= i < |tx.transfers| ensures ImportedLeg(tx.hash, ExportedLeg(tx.transfers[i])) == tx.transfers[i] {
      assert tx.transfers[i].txHash == h;
    }
    assert ImportedLegs(tx.hash, ExportedLegs(tx.transfers)) == tx.transfers;
  }

  /** Exporting every tracked transaction and importing them into an empty tracker restores all of it. */
  lemma ExportImport(s: State, order: seq<Hash>)
    requires Inv(s) && Enumerates(order, s.txs.Keys)
    ensures var r := ImportAll(FRESH, ExportedAll(s, order));
            r.txs == s.txs && NonceExact(r.txs, r.byNonce) && forall key, h :: Listed(r.byNonce, key, h) <==> Listed(s.byNonce, key, h)
  {
    hide TxOk, Graves, Tombstones.Valid, ImportAll, Exported, Imported, Active;
    var out := ExportedAll(s, order);
    forall i | 0 <= i < |out| ensures Imported(out[i]) == s.txs[order[i]] && Active(out[i].head.status) && out[i].hash == order[i] {
      assert order[i] in order;
      ExportedBack(order[i], s.txs[order[i]]);
    }
    ImportExact(out, |out|);
    assert out[..|out|] == out;
    var r := ImportAll(FRESH, out);
    forall h | h in s.txs ensures h in r.txs && r.txs[h] == s.txs[h] {
      var i :| 0 <= i < |order| && order[i] == h;
      assert out[i].hash == h;
    }
    assert r.txs.Keys == s.txs.Keys;
  }

  lemma FreshExact()
    ensures NonceExact(FRESH.txs, FRESH.byNonce)
  {
  }

  /**
   Restarting from the table: loading and importing recovers every tracked transaction; whatever else comes
   back was an orphan. Tracker and table agree again, so the next life starts as this one did.
   */
  lemma RestartRecovers(rows: map<RowKey, Row>, indexer: nat, s: State, out: seq<StoredTx>)
    requires Agree(rows, indexer, s) && Loaded(rows, indexer, out)
    ensures var r := ImportAll(FRESH, out);
            && (forall h :: h in s.txs ==> h in r.txs && Recovered(s.txs[h], r.txs[h]))
            && (forall h :: h in r.txs ==> h in s.txs || Orphan(rows, indexer, s, h))
            && Agree(rows, indexer, r)
  {
    hide Mirrored, Recovered, DistinctLegs, TxOk, NonceExact, Graves, Tombstones.Valid, ImportAll, Loaded, Restorable, HasActive, Agree;
    var r := ImportAll(FRESH, out);
    LoadedHashes(rows, indexer, out);
    ImportExact(out, |out|);
    assert out[..|out|] == out;
    forall h | h in s.txs ensures h in r.txs && Recovered(s.txs[h], r.txs[h]) {
      AgreeAt(rows, indexer, s, h);
      var j := MirroredRecovers(rows, indexer, out, h, s.txs[h]);
    }
    forall h | h in r.txs ensures RestoredWell(rows, indexer, h, r.txs[h]) {
      var i :| 0 <= i < |out| && out[i].hash == h;
      AgreeAt(rows, indexer, s, h);
      RestoredOk(rows, indexer, out, i);
    }
    NothingBuried(r);
    forall h ensures HasActive(rows, indexer, h) ==> Restorable(rows, indexer, h) {
      AgreeAt(rows, indexer, s, h);
    }
    AgreeAfter(rows, indexer, r);
  }

  ghost predicate RestoredWell(rows: map<RowKey, Row>, indexer: nat, h: Hash, r: Tx) {
    HasActive(rows, indexer, h) && TxOk(h, r) && DistinctLegs(r.transfers) && Mirrored(rows, indexer, r)
  }

  lemma AgreeAt(rows: map<RowKey, Row>, indexer: nat, s: State, h: Hash)
    requires Agree(rows, indexer, s)
    ensures h in s.txs ==> TxOk(h, s.txs[h]) && DistinctLegs(s.txs[h].transfers) && Mirrored(rows, indexer, s.txs[h])
    ensures HasActive(rows, indexer, h) ==> Restorable(rows, indexer, h)
  {
  }

  lemma AgreeAfter(rows: map<RowKey, Row>, indexer: nat, r: State)
    requires forall h :: h in r.txs ==> RestoredWell(rows, indexer, h, r.txs[h])
    requires forall h :: HasActive(rows, indexer, h) ==> Restorable(rows, indexer, h)
    requires NonceExact(r.txs, r.byNonce) && Graves(r) && Tombstones.Valid(r.memory)
    ensures Agree(rows, indexer, r)
  {
    hide NonceExact, Graves, Tombstones.Valid, Mirrored, Restorable, HasActive, DistinctLegs, TxOk;
  }

  lemma LoadedHashes(rows: map<RowKey, Row>, indexer: nat, out: seq<StoredTx>)
    requires Loaded(rows, indexer, out)
    ensures DistinctHashes(out)
    ensures forall i :: 0 <= i < |out| ==> Active(out[i].head.status) && HasActive(rows, indexer, out[i].hash)
  {
    hide HasActive, TxLoaded;
    forall i | 0 <= i < |out| ensures Active(out[i].head.status) && HasActive(rows, indexer, out[i].hash) {
      LoadedActive(rows, indexer, out, i);
    }
  }

  lemma NothingBuried(s: State)
    requires s.memory == Tombstones.EMPTY
    ensures Graves(s) && Tombstones.Valid(s.memory)
  {
  }

  lemma LoadedActive(rows: map<RowKey, Row>, indexer: nat, out: seq<StoredTx>, i: nat)
    requires Loaded(rows, indexer, out) && i < |out|
    ensures Active(out[i].head.status) && HasActive(rows, indexer, out[i].hash)
  {
    assert TxLoaded(rows, indexer, out[i]);
    var k := KeyAt(indexer, out[i], 0);
    assert k in rows && Owns(k, indexer, out[i].hash) && Active(rows[k].head.status);
  }

  lemma RestoredOk(rows: map<RowKey, Row>, indexer: nat, out: seq<StoredTx>, i: nat)
    requires Loaded(rows, indexer, out) && i < |out| && Restorable(rows, indexer, out[i].hash)
    ensures var r := Imported(out[i]);
            TxOk(out[i].hash, r) && DistinctLegs(r.transfers) && Mirrored(rows, indexer, r)
  {
    hide Holds, Mirrored, Recovered;
    var h := out[i].hash;
    var tx :| TxOk(h, tx) && DistinctLegs(tx.transfers) && Mirrored(rows, indexer, tx);
    var j := MirroredRecovers(rows, indexer, out, h, tx);
    assert j == i;
    RecoveredOk(h, tx, Imported(out[i]));
    LoadedMirrored(rows, indexer, out, i, tx);
  }

  // ---------------------------------------------------------------- whole lives

  /** An input with the instant its events were persisted, or a restart. */
  datatype Turn = Fed(input: Input, now: Time) | Restarted(loaded: seq<StoredTx>)

  datatype Stage = Stage(s: State, rows: map<RowKey, Row>)

  ghost predicate Follows(cfg: Config, indexer: nat, a: Stage, turn: Turn, b: Stage) {
    match turn
    case Fed(i, now) =>
      && WellFormed(a.s, i) && DistinctInput(i)
      && b.s == Step(cfg, a.s, i).0
      && BatchPersisted(a.rows, b.rows, indexer, b.s, Step(cfg, a.s, i).1, now)
    case Restarted(loaded) => Loaded(a.rows, indexer, loaded) && b == Stage(ImportAll(FRESH, loaded), a.rows)
  }

  ghost predicate Life(cfg: Config, indexer: nat, turns: seq<Turn>, stages: seq<Stage>) {
    && |stages| == |turns| + 1
    && stages[0].s == FRESH && (forall h :: !HasActive(stages[0].rows, indexer, h))
    && (forall k :: 0 <= k < |turns| ==> Follows(cfg, indexer, stages[k], turns[k], stages[k + 1]))
  }

  /** Silently forgotten at turn `k`. */
  ghost predicate ForgottenAt(cfg: Config, turns: seq<Turn>, stages: seq<Stage>, k: nat, h: Hash)
    requires k < |turns| < |stages|
  {
    turns[k].Fed? && SilentlyForgotten(stages[k].s, stages[k + 1].s, Step(cfg, stages[k].s, turns[k].input).1, h)
  }

  /**
   The restart mirror: at every moment of every life, restarts included, the table mirrors the tracker, a
   restart recovers every in-flight transaction, and an active row nobody tracks was silently forgotten.
   */
  lemma {:induction false} EveryLife(cfg: Config, indexer: nat, turns: seq<Turn>, stages: seq<Stage>, n: nat)
    requires Life(cfg, indexer, turns, stages) && n <= |turns|
    ensures Agree(stages[n].rows, indexer, stages[n].s)
    ensures forall h :: Orphan(stages[n].rows, indexer, stages[n].s, h) ==>
      exists k :: 0 <= k < n && ForgottenAt(cfg, turns, stages, k, h)
  {
    hide Agree, Step, WellFormed, DistinctInput, BatchPersisted, Loaded, SilentlyForgotten, ImportAll, HasActive;
    if n == 0 {
      FreshAgrees(stages[0].rows, indexer);
    } else {
      EveryLife(cfg, indexer, turns, stages, n - 1);
      var a, turn, b := stages[n - 1], turns[n - 1], stages[n];
      assert Follows(cfg, indexer, a, turn, b);
      forall h | Orphan(b.rows, indexer, b.s, h) ensures exists k :: 0 <= k < n && ForgottenAt(cfg, turns, stages, k, h) {
        TurnOrphans(cfg, indexer, a, turn, b, h);
        if !Orphan(a.rows, indexer, a.s, h) { assert ForgottenAt(cfg, turns, stages, n - 1, h); }
      }
      TurnAgrees(cfg, indexer, a, turn, b);
    }
  }

  lemma FreshAgrees(rows: map<RowKey, Row>, indexer: nat)
    requires forall h :: !HasActive(rows, indexer, h)
    ensures Agree(rows, indexer, FRESH)
  {
    NothingBuried(FRESH);
    FreshExact();
  }

  lemma TurnAgrees(cfg: Config, indexer: nat, a: Stage, turn: Turn, b: Stage)
    requires Agree(a.rows, indexer, a.s) && Follows(cfg, indexer, a, turn, b)
    ensures Agree(b.rows, indexer, b.s)
  {
    hide Agree, Step, WellFormed, DistinctInput, BatchPersisted, Loaded, ImportAll;
    match turn
    case Fed(i, now) => StepMirrors(cfg, a.rows, b.rows, indexer, a.s, i, now);
    case Restarted(loaded) => RestartRecovers(a.rows, indexer, a.s, loaded);
  }

  lemma TurnOrphans(cfg: Config, indexer: nat, a: Stage, turn: Turn, b: Stage, h: Hash)
    requires Agree(a.rows, indexer, a.s) && Follows(cfg, indexer, a, turn, b) && Orphan(b.rows, indexer, b.s, h)
    ensures Orphan(a.rows, indexer, a.s, h)
         || (turn.Fed? && SilentlyForgotten(a.s, b.s, Step(cfg, a.s, turn.input).1, h))
  {
    hide Agree, Step, WellFormed, DistinctInput, BatchPersisted, SilentlyForgotten, ImportAll, Loaded;
    match turn
    case Fed(i, now) => StepMirrors(cfg, a.rows, b.rows, indexer, a.s, i, now);
    case Restarted(loaded) => RestartRecovers(a.rows, indexer, a.s, loaded);
  }
}
