/**
 What one input does, seen from one transaction: which events it emits for that transaction, and how
 the tracked state and the tombstone change. `StepEffect` is the one-step form of the lifecycle grammar.
 */
module Effects {
  import opened Types
  import opened Tombstones
  import opened Lifecycle
  import opened Invariant

  // ---------------------------------------------------------------- events of one transaction

  ghost function EventsFor(evs: seq<Event>, hash: Hash): seq<Event> {
    if evs == [] then []
    else (if evs[0].TxHash() == hash then [evs[0]] else []) + EventsFor(evs[1..], hash)
  }

  lemma {:induction false} EventsForConcat(a: seq<Event>, b: seq<Event>, hash: Hash)
    ensures EventsFor(a + b, hash) == EventsFor(a, hash) + EventsFor(b, hash)
  {
    if a == [] {
      assert a + b == b;
    } else {
      EventsForConcat(a[1..], b, hash);
      var own := if a[0].TxHash() == hash then [a[0]] else [];
      assert (a + b)[0] == a[0] && (a + b)[1..] == a[1..] + b;
      assert own + (EventsFor(a[1..], hash) + EventsFor(b, hash)) == own + EventsFor(a[1..], hash) + EventsFor(b, hash);
    }
  }

  lemma {:induction false} EventsForSame(evs: seq<Event>, owner: Hash, hash: Hash)
    requires forall i :: 0 <= i < |evs| ==> evs[i].TxHash() == owner
    ensures EventsFor(evs, hash) == if hash == owner then evs else []
  {
    if evs == [] {
    } else {
      EventsForSame(evs[1..], owner, hash);
      assert evs == [evs[0]] + evs[1..];
    }
  }

  lemma {:induction false} EventsForMembers(evs: seq<Event>, e: Event)
    ensures e in evs <==> e in EventsFor(evs, e.TxHash())
  {
    if evs == [] {
    } else {
      EventsForMembers(evs[1..], e);
      assert evs == [evs[0]] + evs[1..];
    }
  }

  /** All events of one tracked transaction carry its hash. */
  lemma OwnEvents(tx: Tx, typ: EventType, confirmations: nat, winner: Hash, hash: Hash)
    requires LegsOf(tx.transfers, tx.hash)
    ensures EventsFor(Events(tx, typ, confirmations), hash)
         == if hash == tx.hash then Events(tx, typ, confirmations) else []
    ensures EventsFor(ReplacedEvents(tx, winner), hash) == if hash == tx.hash then ReplacedEvents(tx, winner) else []
  {
    EventsForSame(Events(tx, typ, confirmations), tx.hash, hash);
    EventsForSame(ReplacedEvents(tx, winner), tx.hash, hash);
  }

  // ---------------------------------------------------------------- consumed nonce slots

  /** The occupants of a slot that a consumption by `winner` replaces. */
  ghost predicate Loser(s: State, key: NonceKey, winner: Hash, hash: Hash) {
    hash in s.txs && Occupies(s.txs[hash], key) && hash != winner
  }

  ghost function Spared(visited: seq<Hash>, winner: Hash): seq<Hash> {
    if winner in visited then [winner] else []
  }

  ghost predicate SlotPartlyResolved(s: State, key: NonceKey, winner: Hash, visited: seq<Hash>, left: seq<Hash>, s': State) {
    && (forall h :: h in s'.txs <==> h in s.txs && !(h in visited && h != winner))
    && (forall h :: h in s'.txs ==> s'.txs[h] == s.txs[h])
    && (forall k :: k != key ==> Occupants(s'.byNonce, k) == Occupants(s.byNonce, k) && (k in s'.byNonce <==> k in s.byNonce))
    && Occupants(s'.byNonce, key) == Spared(visited, winner) + left
    && (key in s'.byNonce <==> Occupants(s'.byNonce, key) != [])
  }

  lemma OccupantsExact(s: State, key: NonceKey)
    requires NonceExact(s.txs, s.byNonce)
    ensures NoDup(Occupants(s.byNonce, key))
    ensures forall h :: h in Occupants(s.byNonce, key) <==> h in s.txs && Occupies(s.txs[h], key)
  {
    forall h ensures h in Occupants(s.byNonce, key) <==> h in s.txs && Occupies(s.txs[h], key) {
      assert Listed(s.byNonce, key, h) <==> h in Occupants(s.byNonce, key);
    }
  }

  /** One more occupant of the copied list is resolved. */
  lemma ReplaceOneResolves(s: State, key: NonceKey, winner: Hash, visited: seq<Hash>, h: Hash, left: seq<Hash>, s1: State)
    requires SlotPartlyResolved(s, key, winner, visited, [h] + left, s1)
    requires h !in visited && h in s.txs && Occupies(s.txs[h], key) && s.txs[h].hash == h
    ensures SlotPartlyResolved(s, key, winner, visited + [h], left, ReplaceOne(s1, h, winner).0)
    ensures ReplaceOne(s1, h, winner).1 == if h == winner then [] else ReplacedEvents(s.txs[h], winner)
  {
    if h == winner {
      assert Spared(visited, winner) + ([h] + left) == Spared(visited + [h], winner) + left;
    } else {
      RemovePast(Spared(visited, winner), h, left);
      assert Spared(visited, winner) + ([h] + left) == Spared(visited, winner) + [h] + left;
      assert Spared(visited + [h], winner) == Spared(visited, winner);
      assert s1.txs[h] == s.txs[h];
      UnindexOccupants(s1.byNonce, s.txs[h]);
      assert ReplaceOne(s1, h, winner).0.byNonce == Unindex(s1.byNonce, s.txs[h]);
      assert ReplaceOne(s1, h, winner).0.txs == s1.txs - {h};
    }
  }

  lemma UnindexOccupants(byNonce: map<NonceKey, seq<Hash>>, tx: Tx)
    requires tx.hasNonce
    ensures var byNonce' := Unindex(byNonce, tx);
            var rest := RemoveFirst(Occupants(byNonce, Slot(tx)), tx.hash);
            && Occupants(byNonce', Slot(tx)) == rest && (Slot(tx) in byNonce' <==> rest != [])
            && (forall k :: k != Slot(tx) ==> Occupants(byNonce', k) == Occupants(byNonce, k) && (k in byNonce' <==> k in byNonce))
  {
  }

  lemma RemovePast(a: seq<Hash>, h: Hash, b: seq<Hash>)
    requires |a| <= 1 && h !in a
    ensures RemoveFirst(a + [h] + b, h) == a + b
  {
    var all := a + [h] + b;
    if a == [] {
      assert all[0] == h && all[1..] == a + b;
    } else {
      assert all[0] == a[0] && all[1..] == [h] + b && ([h] + b)[1..] == b;
      assert [a[0]] + b == a + b;
    }
  }

  /** The n-th occupant of a slot. */
  lemma OccupantAt(s: State, key: NonceKey, n: nat)
    requires Inv(s) && n < |Occupants(s.byNonce, key)|
    ensures var occ := Occupants(s.byNonce, key);
            && occ[n] in s.txs && Occupies(s.txs[occ[n]], key) && TxOk(occ[n], s.txs[occ[n]])
            && occ[n] !in occ[..n]
            && occ[..n + 1] == occ[..n] + [occ[n]] && occ[n..] == [occ[n]] + occ[n + 1..]
  {
    OccupantsExact(s, key);
    assert Occupants(s.byNonce, key)[n] in Occupants(s.byNonce, key);
  }

  /** The walk over a copy of the slot's list, element by element, while the list itself shrinks. */
  lemma {:induction false} ReplaceAllPrefix(s: State, key: NonceKey, n: nat, winner: Hash)
    requires Inv(s) && n <= |Occupants(s.byNonce, key)|
    ensures var occ := Occupants(s.byNonce, key);
            SlotPartlyResolved(s, key, winner, occ[..n], occ[n..], ReplaceAll(s, occ[..n], winner).0)
  {
    var occ := Occupants(s.byNonce, key);
    if n == 0 {
      assert occ[..0] == [] && occ[0..] == occ;
      assert Spared([], winner) + occ == occ;
      assert key in s.byNonce ==> s.byNonce[key] != [];
    } else {
      hide Inv, SlotPartlyResolved, ReplaceOne;
      ReplaceAllPrefix(s, key, n - 1, winner);
      OccupantAt(s, key, n - 1);
      var visited, h := occ[..n - 1], occ[n - 1];
      assert occ[..n][..n - 1] == visited;
      ReplaceOneResolves(s, key, winner, visited, h, occ[n..], ReplaceAll(s, visited, winner).0);
    }
  }

  lemma ReplaceOneEvents(s: State, key: NonceKey, winner: Hash, visited: seq<Hash>, h: Hash, left: seq<Hash>, s1: State, hash: Hash)
    requires SlotPartlyResolved(s, key, winner, visited, [h] + left, s1)
    requires h !in visited && h in s.txs && Occupies(s.txs[h], key) && TxOk(h, s.txs[h])
    ensures EventsFor(ReplaceOne(s1, h, winner).1, hash)
         == if h == hash && hash != winner then ReplacedEvents(s.txs[h], winner) else []
  {
    ReplaceOneResolves(s, key, winner, visited, h, left, s1);
    OwnEvents(s.txs[h], Replaced, 0, winner, hash);
  }

  lemma {:induction false} ReplaceAllEvents(s: State, key: NonceKey, n: nat, winner: Hash, hash: Hash)
    requires Inv(s) && n <= |Occupants(s.byNonce, key)|
    ensures hash in Occupants(s.byNonce, key)[..n] ==> hash in s.txs
    ensures EventsFor(ReplaceAll(s, Occupants(s.byNonce, key)[..n], winner).1, hash)
         == if hash in Occupants(s.byNonce, key)[..n] && hash != winner then ReplacedEvents(s.txs[hash], winner) else []
  {
    hide Inv, SlotPartlyResolved;
    var occ := Occupants(s.byNonce, key);
    if n == 0 {
    } else {
      ReplaceAllEvents(s, key, n - 1, winner, hash);
      ReplaceAllPrefix(s, key, n - 1, winner);
      OccupantAt(s, key, n - 1);
      var visited, h := occ[..n - 1], occ[n - 1];
      ReplaceOneEvents(s, key, winner, visited, h, occ[n..], ReplaceAll(s, visited, winner).0, hash);
      ReplaceAllSnoc(s, visited, h, winner, hash);
    }
  }

  lemma ReplaceAllSnoc(s: State, visited: seq<Hash>, h: Hash, winner: Hash, hash: Hash)
    ensures var s1 := ReplaceAll(s, visited, winner).0;
            EventsFor(ReplaceAll(s, visited + [h], winner).1, hash)
            == EventsFor(ReplaceAll(s, visited, winner).1, hash) + EventsFor(ReplaceOne(s1, h, winner).1, hash)
  {
    assert (visited + [h])[..|visited|] == visited;
    var (s1, evs1) := ReplaceAll(s, visited, winner);
    EventsForConcat(evs1, ReplaceOne(s1, h, winner).1, hash);
  }

  lemma SlotResolved(s: State, key: NonceKey, winner: Hash, occ: seq<Hash>, s': State)
    requires SlotPartlyResolved(s, key, winner, occ, [], s')
    requires forall h :: h in occ <==> h in s.txs && Occupies(s.txs[h], key)
    ensures forall h :: h in s'.txs <==> h in s.txs && !Loser(s, key, winner, h)
    ensures forall h :: h in s'.txs ==> s'.txs[h] == s.txs[h]
    ensures s'.byNonce == if winner in s.txs && Occupies(s.txs[winner], key) then s.byNonce[key := [winner]] else s.byNonce - {key}
  {
    assert Occupants(s'.byNonce, key) == Spared(occ, winner);
    forall k | k in s'.byNonce && k != key ensures s'.byNonce[k] == s.byNonce[k] {
      assert Occupants(s'.byNonce, k) == Occupants(s.byNonce, k);
    }
  }

  /**
   A consumed slot replaces exactly the other pending transactions occupying it, naming the winner in
   every event, and leaves at most the winner behind.
   */
  lemma OnNonceUsedExact(s: State, sender: Address, nonce: nat, winner: Hash)
    requires Inv(s)
    ensures var key := NonceKey(sender, nonce);
            var (s', evs) := OnNonceUsed(s, sender, nonce, winner);
            && (forall h :: h in s'.txs <==> h in s.txs && !Loser(s, key, winner, h))
            && (forall h :: h in s'.txs ==> s'.txs[h] == s.txs[h])
            && s'.byNonce == (if winner in s.txs && Occupies(s.txs[winner], key) then s.byNonce[key := [winner]] else s.byNonce - {key})
            && (forall h :: EventsFor(evs, h) == if Loser(s, key, winner, h) then ReplacedEvents(s.txs[h], winner) else [])
  {
    var key := NonceKey(sender, nonce);
    var occ := Occupants(s.byNonce, key);
    assert occ[..|occ|] == occ && occ[|occ|..] == [];
    OccupantsExact(s, key);
    ReplaceAllPrefix(s, key, |occ|, winner);
    var (s', evs) := OnNonceUsed(s, sender, nonce, winner);
    SlotResolved(s, key, winner, occ, s');
    forall h ensures EventsFor(evs, h) == if Loser(s, key, winner, h) then ReplacedEvents(s.txs[h], winner) else [] {
      ReplaceAllEvents(s, key, |occ|, winner, h);
    }
  }

  // ---------------------------------------------------------------- reorgs

  ghost predicate Reverted(s: State, ancestor: nat, hash: Hash) {
    hash in s.txs && s.txs[hash].state.InBlock? && s.txs[hash].blockNum > ancestor
  }

  lemma NoEvents(hash: Hash)
    ensures EventsFor([], hash) == []
  {
  }

  lemma TxFacts(s: State, hash: Hash)
    requires Inv(s) && hash in s.txs
    ensures TxOk(hash, s.txs[hash])
  {
  }

  lemma {:induction false} OnReorgPrefix(s: State, ancestor: nat, order: seq<Hash>, now: Time, hash: Hash)
    requires Inv(s)
    ensures var (s', evs) := OnReorg(s, ancestor, order, now);
            && s'.txs.Keys == s.txs.Keys && s'.memory == s.memory
            && (hash in s.txs ==> s'.txs[hash] == if hash in order && Reverted(s, ancestor, hash) then BackToMempool(s.txs[hash], now) else s.txs[hash])
            && EventsFor(evs, hash) == if hash in order && Reverted(s, ancestor, hash) then Events(s.txs[hash], Reorged, 0) else []
  {
    hide Inv, Index, Events, EventsFor, LegsOf;
    assert EventsFor([], hash) == [] by { NoEvents(hash); }
    if order == [] {
    } else {
      var init, last := order[..|order| - 1], order[|order| - 1];
      assert order == init + [last];
      assert hash in order <==> hash in init || hash == last;
      OnReorgPrefix(s, ancestor, init, now, hash);
      OnReorgPrefix(s, ancestor, init, now, last);
      var (s1, evs1) := OnReorg(s, ancestor, init, now);
      var (s2, evs2) := ReorgOne(s1, last, ancestor, now);
      EventsForConcat(evs1, evs2, hash);
      if last in s.txs {
        TxFacts(s, last);
        OwnEvents(s1.txs[last], Reorged, 0, 0, hash);
      }
    }
  }

  /** A reorg reverts exactly the transactions mined above the ancestor, whatever order the map is walked in. */
  lemma OnReorgExact(s: State, ancestor: nat, order: seq<Hash>, now: Time)
    requires Inv(s) && Enumerates(order, s.txs.Keys)
    ensures var (s', evs) := OnReorg(s, ancestor, order, now);
            && s'.txs.Keys == s.txs.Keys && s'.memory == s.memory
            && (forall h :: h in s.txs ==> s'.txs[h] == if Reverted(s, ancestor, h) then BackToMempool(s.txs[h], now) else s.txs[h])
            && (forall h :: EventsFor(evs, h) == if Reverted(s, ancestor, h) then Events(s.txs[h], Reorged, 0) else [])
  {
    var (s', evs) := OnReorg(s, ancestor, order, now);
    forall h ensures EventsFor(evs, h) == if Reverted(s, ancestor, h) then Events(s.txs[h], Reorged, 0) else [] {
      OnReorgPrefix(s, ancestor, order, now, h);
    }
    forall h | h in s.txs ensures h in s'.txs && s'.txs[h] == if Reverted(s, ancestor, h) then BackToMempool(s.txs[h], now) else s.txs[h] {
      OnReorgPrefix(s, ancestor, order, now, h);
    }
    OnReorgPrefix(s, ancestor, order, now, 0);
  }

  // ---------------------------------------------------------------- one step, one transaction

  ghost predicate IsPending(s: State, h: Hash) { h in s.txs && s.txs[h].state.InMempool? }
  ghost predicate IsMined(s: State, h: Hash) { h in s.txs && s.txs[h].state.InBlock? }

  /** `h`'s tombstone did not change, unless it was the oldest of more than `CAP`. */
  ghost predicate Ages(m: Memory, m': Memory, h: Hash) {
    && m.last <= m'.last
    && (h in m'.live ==> h in m.live && m'.live[h] == m.live[h])
    && (h in m.live && h !in m'.live ==> m'.last - m.live[h].seqNo >= CAP)
  }

  /** `h` ended in this step as `typ`, and is remembered so unless `CAP` burials already followed. */
  ghost predicate BuriedAs(m: Memory, m': Memory, h: Hash, typ: EventType) {
    && m.last < m'.last
    && (h in m'.live ==> m'.live[h].typ == typ && m'.live[h].seqNo > m.last)
    && (h !in m'.live ==> m'.last - (m.last + 1) >= CAP)
  }

  ghost predicate ConfirmedGrave(s: State, h: Hash) {
    h in s.memory.live && s.memory.live[h].typ == Confirmed
  }

  /** The lifecycle automaton: when an event of type `typ` may be emitted for `h`, and where it leads. */
  ghost predicate Allowed(s: State, s': State, h: Hash, typ: EventType) {
    match typ
    case Pending => h !in s.txs && (h in s.memory.live ==> s.memory.live[h].typ == Dropped) && IsPending(s', h)
    case Mined => !ConfirmedGrave(s, h) && IsMined(s', h)
    case Reorged => IsMined(s, h) && IsPending(s', h)
    case Dropped => IsPending(s, h) && h !in s'.txs && BuriedAs(s.memory, s'.memory, h, Dropped)
    case Replaced => IsPending(s, h) && h !in s'.txs && BuriedAs(s.memory, s'.memory, h, Replaced)
    case Failed => !ConfirmedGrave(s, h) && h !in s'.txs && BuriedAs(s.memory, s'.memory, h, Failed)
    case Confirmed => !ConfirmedGrave(s, h) && h !in s'.txs && BuriedAs(s.memory, s'.memory, h, Confirmed)
  }

  /** Without an event, `h` is as before but for its timer, or was a calldata guess that delivered nothing. */
  ghost predicate Quiet(s: State, s': State, h: Hash) {
    || (h in s.txs && h in s'.txs && s'.txs[h] == s.txs[h].(pendingSince := s'.txs[h].pendingSince)
        && Ages(s.memory, s'.memory, h))
    || (h !in s.txs && h !in s'.txs && Ages(s.memory, s'.memory, h))
    || (h !in s'.txs && !ConfirmedGrave(s, h) && BuriedAs(s.memory, s'.memory, h, Failed)
        && (h in s.txs ==> IsPending(s, h) && !s.txs[h].authoritative))
  }

  ghost predicate Uniform(evs: seq<Event>) {
    forall i :: 0 <= i < |evs| ==> evs[i].typ == evs[0].typ
  }

  ghost predicate Effect(s: State, s': State, evs: seq<Event>, h: Hash) {
    var own := EventsFor(evs, h);
    && s.memory.last <= s'.memory.last
    && if own == [] then Quiet(s, s', h) else Uniform(own) && Allowed(s, s', h, own[0].typ)
  }

  lemma BuryEffect(m: Memory, hash: Hash, typ: EventType, h: Hash)
    requires Tombstones.Valid(m)
    ensures if h == hash then BuriedAs(m, Bury(m, hash, typ), h, typ) else Ages(m, Bury(m, hash, typ), h)
    ensures Bury(m, hash, typ).last == m.last + 1
  {
    BuryRefines(m, hash, typ);
    BuryRemembers(m, hash, typ);
    if h != hash && h in m.live { BuryForgetsOnlyTheOldest(m, hash, typ, h); }
  }

  lemma OnPendingEffect(s: State, matches: seq<Match>, now: Time, h: Hash)
    requires Inv(s) && WellFormed(s, SeenPending(matches, now))
    ensures var (s', evs) := OnPending(s, matches, now); Effect(s, s', evs, h)
  {
    var (s', evs) := OnPending(s, matches, now);
    if evs != [] { OwnEvents(s'.txs[matches[0].txHash], Pending, 0, 0, h); }
  }

  lemma JudgeEffect(cfg: Config, s: State, hash: Hash, failed: bool, confirmations: nat, finalized: nat, h: Hash)
    requires Tombstones.Valid(s.memory) && hash in s.txs && s.txs[hash].state.InBlock?
    requires s.txs[hash].hash == hash && LegsOf(s.txs[hash].transfers, hash)
    requires s.txs[hash].authoritative ==> s.txs[hash].transfers != []
    ensures var (s', evs) := Judge(cfg, s, hash, failed, confirmations, finalized);
            var own := EventsFor(evs, h);
            && s.memory.last <= s'.memory.last
            && (h != hash ==>
                 && own == [] && Ages(s.memory, s'.memory, h)
                 && (h in s'.txs <==> h in s.txs) && (h in s.txs ==> s'.txs[h] == s.txs[h]))
            && (h == hash && own == [] ==> !s.txs[h].authoritative && h !in s'.txs && BuriedAs(s.memory, s'.memory, h, Failed))
            && (h == hash && own != [] ==>
                 && Uniform(own)
                 && (if own[0].typ == Mined then IsMined(s', h)
                     else own[0].typ in {Failed, Confirmed} && h !in s'.txs && BuriedAs(s.memory, s'.memory, h, own[0].typ)))
  {
    hide Tombstones.Valid, Bury;
    var tx := s.txs[hash];
    OwnEvents(tx, Failed, confirmations, 0, h);
    OwnEvents(tx, Confirmed, confirmations, 0, h);
    OwnEvents(tx, Mined, confirmations, 0, h);
    BuryEffect(s.memory, hash, Failed, h);
    BuryEffect(s.memory, hash, Confirmed, h);
  }

  lemma IncludedEffect(cfg: Config, s: State, hash: Hash, block: Hash, blockNum: nat, transfers: seq<Match>,
                       failed: bool, confirmations: nat, finalized: nat, now: Time, h: Hash)
    requires Tombstones.Valid(s.memory) && LegsOf(transfers, hash)
    requires hash in s.txs ==> TxOk(hash, s.txs[hash])
    ensures var (s', evs) := Judge(cfg, IntoBlock(s, hash, block, blockNum, transfers, now), hash, failed, confirmations, finalized);
            var own := EventsFor(evs, h);
            && s.memory.last <= s'.memory.last
            && (h != hash ==>
                 && own == [] && Ages(s.memory, s'.memory, h)
                 && (h in s'.txs <==> h in s.txs) && (h in s.txs ==> s'.txs[h] == s.txs[h]))
            && (h == hash && own == [] ==>
                 && h !in s'.txs && BuriedAs(s.memory, s'.memory, h, Failed)
                 && (h in s.txs ==> IsPending(s, h) && !s.txs[h].authoritative))
            && (h == hash && own != [] ==>
                 && Uniform(own)
                 && (if own[0].typ == Mined then IsMined(s', h)
                     else own[0].typ in {Failed, Confirmed} && h !in s'.txs && BuriedAs(s.memory, s'.memory, h, own[0].typ)))
  {
    JudgeEffect(cfg, IntoBlock(s, hash, block, blockNum, transfers, now), hash, failed, confirmations, finalized, h);
  }

  lemma OnMinedEffect(cfg: Config, s: State, hash: Hash, block: Hash, blockNum: nat, transfers: seq<Match>,
                      failed: bool, confirmations: nat, finalized: nat, now: Time, h: Hash)
    requires Tombstones.Valid(s.memory) && LegsOf(transfers, hash)
    requires hash in s.txs ==> TxOk(hash, s.txs[hash])
    requires hash in s.txs && hash in s.memory.live ==> s.txs[hash].state.InMempool?
    ensures var (s', evs) := OnMined(cfg, s, hash, block, blockNum, transfers, failed, confirmations, finalized, now);
            Effect(s, s', evs, h)
  {
    hide Tombstones.Valid, Judge, IntoBlock, Uniform, Queue, Without, EventsFor;
    ClearRefines(s.memory, hash);
    NoEffect(s, h);
    IncludedEffect(cfg, Exhume(s, hash), hash, block, blockNum, transfers, failed,
                   if confirmations == 0 then 1 else confirmations, finalized, now, h);
  }

  lemma LeaveEffect(s: State, hash: Hash, typ: EventType, h: Hash)
    requires Inv(s) && IsPending(s, hash)
    ensures var s' := Settle(s.(byNonce := Unindex(s.byNonce, s.txs[hash])), hash, typ);
            && s'.memory.last == s.memory.last + 1
            && if h == hash then h !in s'.txs && BuriedAs(s.memory, s'.memory, h, typ)
               else Ages(s.memory, s'.memory, h) && (h in s'.txs <==> h in s.txs) && (h in s.txs ==> s'.txs[h] == s.txs[h])
  {
    BuryEffect(s.memory, hash, typ, h);
  }

  lemma {:induction false} ReplaceAllAges(s: State, occupants: seq<Hash>, winner: Hash, h: Hash)
    requires Inv(s)
    ensures var s' := ReplaceAll(s, occupants, winner).0;
            && s.memory.last <= s'.memory.last
            && (if h in s.txs && h !in s'.txs then IsPending(s, h) && BuriedAs(s.memory, s'.memory, h, Replaced)
                else Ages(s.memory, s'.memory, h) && (h in s'.txs ==> h in s.txs && s'.txs[h] == s.txs[h]))
  {
    if occupants == [] {
    } else {
      var init, last := occupants[..|occupants| - 1], occupants[|occupants| - 1];
      ReplaceAllAges(s, init, winner, h);
      ReplaceAllKeepsInv(s, init, winner);
      var s1 := ReplaceAll(s, init, winner).0;
      if last != winner && IsPending(s1, last) {
        LeaveEffect(s1, last, Replaced, h);
      }
    }
  }

  lemma OnNonceUsedEffect(s: State, sender: Address, nonce: nat, winner: Hash, h: Hash)
    requires Inv(s)
    ensures var (s', evs) := OnNonceUsed(s, sender, nonce, winner); Effect(s, s', evs, h)
  {
    var key := NonceKey(sender, nonce);
    OnNonceUsedExact(s, sender, nonce, winner);
    ReplaceAllAges(s, Occupants(s.byNonce, key), winner, h);
    if Loser(s, key, winner, h) { assert TxOk(h, s.txs[h]); }
  }

  lemma MinedFacts(s: State, hash: Hash)
    requires Inv(s) && IsMined(s, hash)
    ensures TxOk(hash, s.txs[hash]) && hash !in s.memory.live && Tombstones.Valid(s.memory)
  {
  }

  lemma NoEffect(s: State, h: Hash)
    ensures Effect(s, s, [], h)
  {
  }

  lemma ConfirmEffect(s: State, hash: Hash, headNumber: nat, h: Hash)
    requires Inv(s)
    ensures var (s', evs) := Confirm(s, hash, headNumber); Effect(s, s', evs, h)
  {
    hide Inv, Bury, Tombstones.Valid, EventsFor, Events, Ages, BuriedAs, Uniform;
    if IsMined(s, hash) && headNumber >= s.txs[hash].blockNum {
      MinedFacts(s, hash);
      OwnEvents(s.txs[hash], Confirmed, headNumber - s.txs[hash].blockNum + 1, 0, h);
      BuryEffect(s.memory, hash, Confirmed, h);
      EventsUniform(s.txs[hash], Confirmed, headNumber - s.txs[hash].blockNum + 1);
    } else {
      NoEffect(s, h);
    }
  }

  lemma EventsUniform(tx: Tx, typ: EventType, confirmations: nat)
    ensures |Events(tx, typ, confirmations)| == |tx.transfers| && Uniform(Events(tx, typ, confirmations))
    ensures tx.transfers != [] ==> Events(tx, typ, confirmations)[0].typ == typ
  {
  }

  lemma OnDropStaleEffect(s: State, hash: Hash, stillKnown: bool, now: Time, h: Hash)
    requires Inv(s)
    ensures var (s', evs) := OnDropStale(s, hash, stillKnown, now); Effect(s, s', evs, h)
  {
    if IsPending(s, hash) {
      OwnEvents(s.txs[hash], Dropped, 0, 0, h);
      LeaveEffect(s, hash, Dropped, h);
    }
  }

  lemma DemoteEffect(s: State, hash: Hash, now: Time, h: Hash)
    requires Inv(s)
    ensures var (s', evs) := Demote(s, hash, now); Effect(s, s', evs, h)
  {
    hide Tombstones.Valid, Index, NonceExact;
    if IsMined(s, hash) { OwnEvents(s.txs[hash], Reorged, 0, 0, h); }
  }

  lemma OnReorgEffect(s: State, ancestor: nat, order: seq<Hash>, now: Time, h: Hash)
    requires Inv(s)
    ensures var (s', evs) := OnReorg(s, ancestor, order, now); Effect(s, s', evs, h)
  {
    OnReorgPrefix(s, ancestor, order, now, h);
  }

  /** Every input treats every transaction as the lifecycle automaton allows. */
  lemma StepEffect(cfg: Config, s: State, i: Input, h: Hash)
    requires Inv(s) && WellFormed(s, i)
    ensures var (s', evs) := Step(cfg, s, i); Effect(s, s', evs, h)
  {
    match i
    case SeenPending(matches, now) => OnPendingEffect(s, matches, now, h);
    case FoundMined(hash, block, num, transfers, failed, conf, fin, now) =>
      OnMinedEffect(cfg, s, hash, block, num, transfers, failed, conf, fin, now, h);
    case Verified(hash, head) => ConfirmEffect(s, hash, head, h);
    case Rechecked(hash, still, now) => OnDropStaleEffect(s, hash, still, now, h);
    case NonceUsed(sender, nonce, winner) => OnNonceUsedEffect(s, sender, nonce, winner, h);
    case ForkedAt(ancestor, order, now) => OnReorgEffect(s, ancestor, order, now, h);
    case Demoted(hash, now) => DemoteEffect(s, hash, now, h);
  }
}
