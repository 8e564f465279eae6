/**
 The lifecycle state machine as a specification on values: one function per tracker input, from the
 state before to the state after and the events to emit. Class `Tracker.Tracker` refines it.
 */
module Lifecycle {
  import opened Types
  import opened Tombstones

  datatype TxState = InMempool | InBlock

  /** One transaction being followed; `InMempool` is the source's pending state. */
  datatype Tx = Tx(
    hash: Hash,
    transfers: seq<Match>,
    authoritative: bool,
    state: TxState,
    block: Hash,
    blockNum: nat,
    firstSeen: Time,
    firstSeenBlock: nat,
    minedAt: Time,
    pendingSince: Time,
    sender: Address,
    nonce: nat,
    hasNonce: bool)

  /** One (sender, nonce) slot; at most one transaction occupying it can ever mine. */
  datatype NonceKey = NonceKey(sender: Address, nonce: nat)

  /** Confirmation by depth, or by the chain's finality tag. */
  datatype Config = Config(tagMode: bool, depth: nat, timeout: nat)

  datatype State = State(txs: map<Hash, Tx>, byNonce: map<NonceKey, seq<Hash>>, memory: Memory)

  const FRESH: State := State(map[], map[], Tombstones.EMPTY)

  // ---------------------------------------------------------------- events

  function EventOf(tx: Tx, leg: Match, typ: EventType, confirmations: nat): Event {
    Event(typ, leg, tx.firstSeen, tx.firstSeenBlock, tx.minedAt,
          if tx.state.InBlock? then tx.blockNum else 0,
          if tx.state.InBlock? then tx.block else ZERO_HASH,
          confirmations, None)
  }

  /** One event per transfer leg. */
  function Events(tx: Tx, typ: EventType, confirmations: nat): (evs: seq<Event>)
    ensures |evs| == |tx.transfers|
    ensures forall i :: 0 <= i < |evs| ==> evs[i] == EventOf(tx, tx.transfers[i], typ, confirmations)
  {
    seq(|tx.transfers|, i requires 0 <= i < |tx.transfers| => EventOf(tx, tx.transfers[i], typ, confirmations))
  }

  /** The `replaced` events of a transaction whose slot `winner` consumed. */
  function ReplacedEvents(tx: Tx, winner: Hash): (evs: seq<Event>)
    ensures |evs| == |tx.transfers|
    ensures forall i :: 0 <= i < |evs| ==> evs[i] == EventOf(tx, tx.transfers[i], Replaced, 0).(replacedBy := Some(winner))
  {
    seq(|tx.transfers|, i requires 0 <= i < |tx.transfers| => EventOf(tx, tx.transfers[i], Replaced, 0).(replacedBy := Some(winner)))
  }

  // ---------------------------------------------------------------- the nonce index

  function Slot(tx: Tx): NonceKey { NonceKey(tx.sender, tx.nonce) }

  function Occupants(byNonce: map<NonceKey, seq<Hash>>, key: NonceKey): seq<Hash> {
    if key in byNonce then byNonce[key] else []
  }

  function RemoveFirst(hashes: seq<Hash>, hash: Hash): seq<Hash> {
    if hashes == [] then []
    else if hashes[0] == hash then hashes[1..]
    else [hashes[0]] + RemoveFirst(hashes[1..], hash)
  }

  function Index(byNonce: map<NonceKey, seq<Hash>>, tx: Tx): map<NonceKey, seq<Hash>> {
    if tx.hasNonce then byNonce[Slot(tx) := Occupants(byNonce, Slot(tx)) + [tx.hash]] else byNonce
  }

  function Unindex(byNonce: map<NonceKey, seq<Hash>>, tx: Tx): map<NonceKey, seq<Hash>> {
    if !tx.hasNonce then byNonce
    else
      var rest := RemoveFirst(Occupants(byNonce, Slot(tx)), tx.hash);
      if rest == [] then byNonce - {Slot(tx)} else byNonce[Slot(tx) := rest]
  }

  // ---------------------------------------------------------------- inputs

  /** Forgets a transaction for good. */
  function Settle(s: State, hash: Hash, typ: EventType): State {
    s.(txs := s.txs - {hash}, memory := Bury(s.memory, hash, typ))
  }

  function OnPending(s: State, matches: seq<Match>, now: Time): (State, seq<Event>) {
    if matches == [] then (s, [])
    else
      var hash := matches[0].txHash;
      if hash in s.txs then (s, [])
      else if hash in s.memory.live && s.memory.live[hash].typ != Dropped then (s, [])
      else
        var tx := Tx(hash, matches, false, InMempool, ZERO_HASH, 0, now, 0, NO_TIME, now,
                     matches[0].txSender, matches[0].txNonce, true);
        (s.(txs := s.txs[hash := tx], byNonce := Index(s.byNonce, tx)), Events(tx, Pending, 0))
  }

  predicate ConfirmedAt(cfg: Config, blockNum: nat, confirmations: nat, finalized: nat) {
    if cfg.tagMode then finalized > 0 && blockNum <= finalized else confirmations >= cfg.depth
  }

  /** The transaction as it stands once included in `block`. */
  function Included(tx: Tx, block: Hash, blockNum: nat, transfers: seq<Match>, now: Time): Tx {
    var tx := if tx.firstSeenBlock == 0 then tx.(firstSeenBlock := blockNum, minedAt := now) else tx;
    var tx := if transfers != [] then tx.(transfers := transfers, authoritative := true) else tx;
    tx.(state := InBlock, block := block, blockNum := blockNum)
  }

  /** Where a mined discovery starts from: the tracked transaction, or a blank one. */
  function Discovered(s: State, hash: Hash, now: Time): Tx {
    if hash in s.txs then s.txs[hash]
    else Tx(hash, [], false, InMempool, ZERO_HASH, 0, now, 0, NO_TIME, now, 0, 0, false)
  }

  /** A re-mine after a failed, dropped or replaced ending is a real payment: its tombstone goes. */
  function Exhume(s: State, hash: Hash): State {
    if hash in s.memory.live then s.(memory := Clear(s.memory, hash)) else s
  }

  function IntoBlock(s: State, hash: Hash, block: Hash, blockNum: nat, transfers: seq<Match>, now: Time): State {
    var before := Discovered(s, hash, now);
    s.(txs := s.txs[hash := Included(before, block, blockNum, transfers, now)],
       byNonce := if before.state.InMempool? then Unindex(s.byNonce, before) else s.byNonce)
  }

  /** The verdict on a transaction that was just included. */
  function Judge(cfg: Config, s: State, hash: Hash, failed: bool, confirmations: nat, finalized: nat): (State, seq<Event>)
    requires hash in s.txs
  {
    var tx := s.txs[hash];
    if failed then (Settle(s, hash, Failed), Events(tx, Failed, confirmations))
    else if !tx.authoritative then (Settle(s, hash, Failed), [])
    else if ConfirmedAt(cfg, tx.blockNum, confirmations, finalized)
    then (Settle(s, hash, Confirmed), Events(tx, Confirmed, confirmations))
    else (s, Events(tx, Mined, confirmations))
  }

  function OnMined(cfg: Config, s: State, hash: Hash, block: Hash, blockNum: nat, transfers: seq<Match>,
                   failed: bool, confirmations: nat, finalized: nat, now: Time): (State, seq<Event>)
  {
    if hash in s.memory.live && s.memory.live[hash].typ == Confirmed then (s, [])
    else
      var s := Exhume(s, hash);
      if hash in s.txs && s.txs[hash].state.InBlock? && s.txs[hash].block == block then (s, [])
      else Judge(cfg, IntoBlock(s, hash, block, blockNum, transfers, now), hash, failed,
                 if confirmations == 0 then 1 else confirmations, finalized)
  }

  function Confirm(s: State, hash: Hash, headNumber: nat): (State, seq<Event>) {
    if hash !in s.txs || s.txs[hash].state.InMempool? || headNumber < s.txs[hash].blockNum then (s, [])
    else (Settle(s, hash, Confirmed), Events(s.txs[hash], Confirmed, headNumber - s.txs[hash].blockNum + 1))
  }

  function OnDropStale(s: State, hash: Hash, stillKnown: bool, now: Time): (State, seq<Event>) {
    if hash !in s.txs || s.txs[hash].state.InBlock? then (s, [])
    else if stillKnown then (s.(txs := s.txs[hash := s.txs[hash].(pendingSince := now)]), [])
    else
      var tx := s.txs[hash];
      (Settle(s.(byNonce := Unindex(s.byNonce, tx)), hash, Dropped), Events(tx, Dropped, 0))
  }

  /** Resolves one occupant of a consumed slot. */
  function ReplaceOne(s: State, hash: Hash, winner: Hash): (State, seq<Event>) {
    if hash == winner || hash !in s.txs || s.txs[hash].state.InBlock? then (s, [])
    else
      var tx := s.txs[hash];
      (Settle(s.(byNonce := Unindex(s.byNonce, tx)), hash, Replaced), ReplacedEvents(tx, winner))
  }

  function ReplaceAll(s: State, occupants: seq<Hash>, winner: Hash): (State, seq<Event>) {
    if occupants == [] then (s, [])
    else
      var (s1, evs1) := ReplaceAll(s, occupants[..|occupants| - 1], winner);
      var (s2, evs2) := ReplaceOne(s1, occupants[|occupants| - 1], winner);
      (s2, evs1 + evs2)
  }

  function OnNonceUsed(s: State, sender: Address, nonce: nat, winner: Hash): (State, seq<Event>) {
    ReplaceAll(s, Occupants(s.byNonce, NonceKey(sender, nonce)), winner)
  }

  function BackToMempool(tx: Tx, now: Time): Tx {
    tx.(state := InMempool, block := ZERO_HASH, blockNum := 0, pendingSince := now)
  }

  function Demote(s: State, hash: Hash, now: Time): (State, seq<Event>) {
    if hash !in s.txs || s.txs[hash].state.InMempool? then (s, [])
    else
      var tx := BackToMempool(s.txs[hash], now);
      (s.(txs := s.txs[hash := tx], byNonce := Index(s.byNonce, tx)), Events(s.txs[hash], Reorged, 0))
  }

  function ReorgOne(s: State, hash: Hash, ancestor: nat, now: Time): (State, seq<Event>) {
    if hash in s.txs && s.txs[hash].blockNum <= ancestor then (s, []) else Demote(s, hash, now)
  }

  /** `order` is the order in which Go's map iteration visits the tracked transactions. */
  function OnReorg(s: State, ancestor: nat, order: seq<Hash>, now: Time): (State, seq<Event>) {
    if order == [] then (s, [])
    else
      var (s1, evs1) := OnReorg(s, ancestor, order[..|order| - 1], now);
      var (s2, evs2) := ReorgOne(s1, order[|order| - 1], ancestor, now);
      (s2, evs1 + evs2)
  }

  /** How long a transaction waited in the mempool; known only for one seen there and since included. */
  function WaitIn(s: State, hash: Hash): Option<int> {
    if hash in s.txs && s.txs[hash].hasNonce && s.txs[hash].minedAt != NO_TIME
    then Some(s.txs[hash].minedAt - s.txs[hash].firstSeen) else None
  }

  // ---------------------------------------------------------------- runs

  datatype Input =
    | SeenPending(matches: seq<Match>, now: Time)
    | FoundMined(hash: Hash, block: Hash, blockNum: nat, transfers: seq<Match>, failed: bool,
                 confirmations: nat, finalized: nat, now: Time)
    | Verified(hash: Hash, headNumber: nat)
    | Rechecked(hash: Hash, stillKnown: bool, now: Time)
    | NonceUsed(sender: Address, nonce: nat, winner: Hash)
    | ForkedAt(ancestor: nat, order: seq<Hash>, now: Time)
    | Demoted(hash: Hash, now: Time)

  function Step(cfg: Config, s: State, i: Input): (State, seq<Event>) {
    match i
    case SeenPending(matches, now) => OnPending(s, matches, now)
    case FoundMined(hash, block, num, transfers, failed, conf, fin, now) =>
      OnMined(cfg, s, hash, block, num, transfers, failed, conf, fin, now)
    case Verified(hash, head) => Confirm(s, hash, head)
    case Rechecked(hash, still, now) => OnDropStale(s, hash, still, now)
    case NonceUsed(sender, nonce, winner) => OnNonceUsed(s, sender, nonce, winner)
    case ForkedAt(ancestor, order, now) => OnReorg(s, ancestor, order, now)
    case Demoted(hash, now) => Demote(s, hash, now)
  }

  predicate LegsOf(legs: seq<Match>, hash: Hash) {
    forall i :: 0 <= i < |legs| ==> legs[i].txHash == hash
  }

  /** A duplicate-free listing of a set: one possible map iteration order. */
  ghost predicate Enumerates(order: seq<Hash>, keys: set<Hash>) {
    && (forall i, j :: 0 <= i < j < |order| ==> order[i] != order[j])
    && (forall h :: h in order <==> h in keys)
  }

  /** What the callers guarantee: the legs of one input all belong to one transaction. */
  ghost predicate WellFormed(s: State, i: Input) {
    match i
    case SeenPending(matches, now) => matches != [] ==> LegsOf(matches, matches[0].txHash)
    case FoundMined(hash, _, _, transfers, _, _, _, _) => LegsOf(transfers, hash)
    case ForkedAt(_, order, _) => Enumerates(order, s.txs.Keys)
    case _ => true
  }
}
