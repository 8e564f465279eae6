/**
 The transactions table: one row per transfer leg, keyed by (indexer, transaction, log index), each carrying
 its transaction's whole lifecycle. SQL statements are updates of a finite map; text encodings of hashes,
 values and times are left out.
 */
module Storage {
  import opened Types

  /** A leg's own columns. */
  datatype Leg = Leg(from: Address, to: Address, direction: Direction, asset: string, token: Option<Address>,
                     decimals: nat, value: nat)

  /** One leg as the tracker exports it; sender and nonce have no column of their own. */
  datatype Transfer = Transfer(leg: Leg, logIndex: Option<nat>, txSender: Address, txNonce: nat)

  /** The columns every leg row of a transaction repeats. */
  datatype Head = Head(
    status: EventType, block: Hash, blockNum: nat, firstSeen: Time, firstSeenBlock: nat, minedAt: Time,
    pendingSince: Time, sender: Address, nonce: nat, hasNonce: bool, authoritative: bool, replacedBy: Option<Hash>)

  datatype StoredTx = StoredTx(hash: Hash, head: Head, transfers: seq<Transfer>)

  /** `index` is -1 for a leg without a log index. */
  datatype RowKey = RowKey(indexer: nat, hash: Hash, index: int)

  datatype Row = Row(head: Head, leg: Leg, updatedAt: Time)

  const NATIVE_LEG_INDEX: int := -1

  function IndexOf(t: Transfer): int {
    if t.logIndex.Some? then t.logIndex.value else NATIVE_LEG_INDEX
  }

  predicate Active(status: EventType) { status.Pending? || status.Mined? }

  predicate DistinctIndexes(legs: seq<Transfer>) {
    forall i, j :: 0 <= i < j < |legs| ==> IndexOf(legs[i]) != IndexOf(legs[j])
  }

  predicate Owns(k: RowKey, indexer: nat, hash: Hash) { k.indexer == indexer && k.hash == hash }

  function KeyAt(indexer: nat, tx: StoredTx, i: nat): RowKey
    requires i < |tx.transfers|
  {
    RowKey(indexer, tx.hash, IndexOf(tx.transfers[i]))
  }

  /** The transaction's rows are exactly its legs, written at `now`. */
  ghost predicate Holds(rows: map<RowKey, Row>, indexer: nat, tx: StoredTx, now: Time) {
    && (forall i :: 0 <= i < |tx.transfers| ==>
          KeyAt(indexer, tx, i) in rows && rows[KeyAt(indexer, tx, i)] == Row(tx.head, tx.transfers[i].leg, now))
    && (forall k :: k in rows && Owns(k, indexer, tx.hash) ==> exists i :: 0 <= i < |tx.transfers| && KeyAt(indexer, tx, i) == k)
  }

  /** Every other transaction's rows are as before. */
  ghost predicate OthersKept(rows: map<RowKey, Row>, rows': map<RowKey, Row>, indexer: nat, hash: Hash) {
    forall k :: !Owns(k, indexer, hash) ==> (k in rows <==> k in rows') && (k in rows ==> rows'[k] == rows[k])
  }

  // ---------------------------------------------------------------- loading

  /** A row back as a leg; the transaction's sender and nonce stand in for the leg's. */
  function Restored(row: Row, index: int): Transfer {
    Transfer(row.leg, if index < 0 then None else Some(index), row.head.sender, row.head.nonce)
  }

  predicate IndexSorted(legs: seq<Transfer>) {
    forall p, q :: 0 <= p < q < |legs| ==> IndexOf(legs[p]) < IndexOf(legs[q])
  }

  /** A loaded transaction repeats active rows, in index order, under its first row's columns. */
  ghost predicate TxLoaded(rows: map<RowKey, Row>, indexer: nat, tx: StoredTx) {
    && tx.transfers != [] && IndexSorted(tx.transfers)
    && (forall p :: 0 <= p < |tx.transfers| ==>
          && KeyAt(indexer, tx, p) in rows
          && Active(rows[KeyAt(indexer, tx, p)].head.status)
          && tx.transfers[p] == Restored(rows[KeyAt(indexer, tx, p)], IndexOf(tx.transfers[p])))
    && tx.head == rows[KeyAt(indexer, tx, 0)].head
  }

  ghost predicate HasLeg(indexer: nat, tx: StoredTx, k: RowKey) {
    exists p :: 0 <= p < |tx.transfers| && KeyAt(indexer, tx, p) == k
  }

  ghost predicate Found(indexer: nat, out: seq<StoredTx>, k: RowKey) {
    exists i :: 0 <= i < |out| && HasLeg(indexer, out[i], k)
  }

  ghost predicate HashSorted(out: seq<StoredTx>) {
    forall i, j :: 0 <= i < j < |out| ==> out[i].hash < out[j].hash
  }

  /** The active rows of an indexer, grouped: each transaction once, each row in it exactly once. */
  ghost predicate Loaded(rows: map<RowKey, Row>, indexer: nat, out: seq<StoredTx>) {
    && HashSorted(out)
    && (forall i :: 0 <= i < |out| ==> TxLoaded(rows, indexer, out[i]))
    && (forall k :: k in rows && k.indexer == indexer && Active(rows[k].head.status) ==> Found(indexer, out, k))
  }

  predicate KeyLess(a: RowKey, b: RowKey) {
    a.hash < b.hash || (a.hash == b.hash && a.index < b.index)
  }

  ghost predicate KeySorted(keys: seq<RowKey>) {
    forall i, j :: 0 <= i < j < |keys| ==> KeyLess(keys[i], keys[j])
  }

  lemma KeyOrder(a: RowKey, b: RowKey, c: RowKey)
    requires a.indexer == b.indexer
    ensures a == b || KeyLess(a, b) || KeyLess(b, a)
    ensures KeyLess(a, b) && KeyLess(b, c) ==> KeyLess(a, c)
  {
  }

  lemma {:induction false} HasLeast(keys: set<RowKey>, indexer: nat) returns (least: RowKey)
    requires keys != {} && forall k :: k in keys ==> k.indexer == indexer
    ensures least in keys && forall j :: j in keys && j != least ==> KeyLess(least, j)
    decreases |keys|
  {
    hide KeyLess;
    var k :| k in keys;
    var rest := keys - {k};
    if rest == {} {
      least := k;
      assert forall j :: j in keys && j != k ==> j in rest;
    } else {
      assert forall j :: j in keys && j != k ==> j in rest;
      var m := HasLeast(rest, indexer);
      KeyOrder(k, m, m);
      if KeyLess(k, m) {
        least := k;
        forall j | j in rest ensures KeyLess(k, j) {
          KeyOrder(k, m, j);
        }
      } else {
        least := m;
      }
    }
  }

  /** What holds after grouping the rows of `keys`. */
  ghost predicate Grouped(rows: map<RowKey, Row>, indexer: nat, keys: seq<RowKey>, out: seq<StoredTx>) {
    && HashSorted(out)
    && (forall i :: 0 <= i < |out| ==> TxLoaded(rows, indexer, out[i]))
    && (forall q :: 0 <= q < |keys| ==> Found(indexer, out, keys[q]))
    && (|out| == 0 <==> |keys| == 0)
    && (|keys| > 0 ==>
          var last := out[|out| - 1];
          KeyAt(indexer, last, |last.transfers| - 1) == keys[|keys| - 1])
  }

  /** The grouping step: a row joins the last transaction if it has its hash, and starts a new one if not. */
  function Join(out: seq<StoredTx>, k: RowKey, row: Row): seq<StoredTx> {
    if out == [] || out[|out| - 1].hash != k.hash
    then out + [StoredTx(k.hash, row.head, [Restored(row, k.index)])]
    else out[|out| - 1 := out[|out| - 1].(transfers := out[|out| - 1].transfers + [Restored(row, k.index)])]
  }

  /** Growing or adding the last transaction loses no row found before. */
  lemma StillFound(indexer: nat, out: seq<StoredTx>, out': seq<StoredTx>, k: RowKey)
    requires Found(indexer, out, k) && |out| <= |out'|
    requires forall i :: 0 <= i < |out| ==> out'[i].hash == out[i].hash && out[i].transfers <= out'[i].transfers
    ensures Found(indexer, out', k)
  {
    var i :| 0 <= i < |out| && HasLeg(indexer, out[i], k);
    var p :| 0 <= p < |out[i].transfers| && KeyAt(indexer, out[i], p) == k;
    assert KeyAt(indexer, out'[i], p) == k;
    assert HasLeg(indexer, out'[i], k);
  }

  /** A row joins the transaction it belongs to. */
  lemma LegLoaded(rows: map<RowKey, Row>, indexer: nat, tx: StoredTx, k: RowKey)
    requires TxLoaded(rows, indexer, tx) && Loadable(rows, indexer, k)
    requires k.hash == tx.hash && KeyLess(KeyAt(indexer, tx, |tx.transfers| - 1), k)
    ensures TxLoaded(rows, indexer, tx.(transfers := tx.transfers + [Restored(rows[k], k.index)]))
  {
    var leg := Restored(rows[k], k.index);
    var grown := tx.(transfers := tx.transfers + [leg]);
    assert IndexOf(leg) == k.index;
    forall p | 0 <= p < |tx.transfers| ensures KeyAt(indexer, grown, p) == KeyAt(indexer, tx, p) && IndexOf(tx.transfers[p]) < k.index {
      if p < |tx.transfers| - 1 { assert IndexOf(tx.transfers[p]) < IndexOf(tx.transfers[|tx.transfers| - 1]); }
    }
    assert KeyAt(indexer, grown, |tx.transfers|) == k;
  }

  ghost predicate Loadable(rows: map<RowKey, Row>, indexer: nat, k: RowKey) {
    k in rows && k.indexer == indexer && k.index >= NATIVE_LEG_INDEX && Active(rows[k].head.status)
  }

  lemma JoinHashes(rows: map<RowKey, Row>, indexer: nat, keys: seq<RowKey>, out: seq<StoredTx>, k: RowKey)
    requires Grouped(rows, indexer, keys, out) && Loadable(rows, indexer, k)
    requires |keys| > 0 ==> KeyLess(keys[|keys| - 1], k)
    ensures var out' := Join(out, k, rows[k]);
            && HashSorted(out') && (forall i :: 0 <= i < |out'| ==> TxLoaded(rows, indexer, out'[i]))
            && KeyAt(indexer, out'[|out'| - 1], |out'[|out'| - 1].transfers| - 1) == k
  {
    if out == [] || out[|out| - 1].hash != k.hash {
      assert TxLoaded(rows, indexer, StoredTx(k.hash, rows[k].head, [Restored(rows[k], k.index)])) by {
        assert KeyAt(indexer, StoredTx(k.hash, rows[k].head, [Restored(rows[k], k.index)]), 0) == k;
      }
    } else {
      LegLoaded(rows, indexer, out[|out| - 1], k);
    }
  }

  lemma JoinGroups(rows: map<RowKey, Row>, indexer: nat, keys: seq<RowKey>, out: seq<StoredTx>, k: RowKey)
    requires Grouped(rows, indexer, keys, out) && Loadable(rows, indexer, k)
    requires |keys| > 0 ==> KeyLess(keys[|keys| - 1], k)
    ensures Grouped(rows, indexer, keys + [k], Join(out, k, rows[k]))
  {
    hide TxLoaded, HashSorted, KeyLess, Found, HasLeg;
    var out' := Join(out, k, rows[k]);
    JoinHashes(rows, indexer, keys, out, k);
    LastFound(indexer, out', k);
    forall q | 0 <= q < |keys + [k]| ensures Found(indexer, out', (keys + [k])[q]) {
      if q < |keys| { StillFound(indexer, out, out', keys[q]); }
    }
  }

  lemma LastFound(indexer: nat, out: seq<StoredTx>, k: RowKey)
    requires out != [] && out[|out| - 1].transfers != []
    requires KeyAt(indexer, out[|out| - 1], |out[|out| - 1].transfers| - 1) == k
    ensures Found(indexer, out, k)
  {
    assert HasLeg(indexer, out[|out| - 1], k);
  }

  lemma NothingGrouped(rows: map<RowKey, Row>, indexer: nat)
    ensures Grouped(rows, indexer, [], [])
  {
  }

  lemma GroupedLoads(rows: map<RowKey, Row>, indexer: nat, keys: seq<RowKey>, out: seq<StoredTx>)
    requires Grouped(rows, indexer, keys, out)
    requires forall k :: k in rows && k.indexer == indexer && Active(rows[k].head.status) ==> k in keys
    ensures Loaded(rows, indexer, out)
  {
  }

  // ---------------------------------------------------------------- the table

  class Table {
    var rows: map<RowKey, Row>

    /** Log indexes are unsigned; only the native leg's is not. */
    ghost predicate Valid()
      reads this
    {
      forall k :: k in rows ==> k.index >= NATIVE_LEG_INDEX
    }

    constructor ()
      ensures Valid() && rows == map[]
    {
      rows := map[];
    }

    /**
     Replaces the transaction's rows with one per leg. A clash on the primary key rolls everything back, so
     a save succeeds exactly when no two legs share an index.
     */
    method SaveTransaction(indexer: nat, tx: StoredTx, now: Time) returns (ok: bool)
      requires Valid()
      modifies this
      ensures Valid()
      ensures ok <==> DistinctIndexes(tx.transfers)
      ensures ok ==> Holds(rows, indexer, tx, now)
      ensures !ok ==> rows == old(rows)
      ensures OthersKept(old(rows), rows, indexer, tx.hash)
    {
      hide DistinctIndexes, Holds, OthersKept, Owns;
      var before := rows;
      rows := map k | k in rows && !Owns(k, indexer, tx.hash) :: rows[k];
      Deleted(before, rows, indexer, tx, now);
      for i := 0 to |tx.transfers|
        invariant Valid()
        invariant DistinctIndexes(tx.transfers[..i])
        invariant Holds(rows, indexer, tx.(transfers := tx.transfers[..i]), now)
        invariant OthersKept(before, rows, indexer, tx.hash)
      {
        var key := KeyAt(indexer, tx, i);
        if key in rows {
          LegsClash(rows, indexer, tx, i, now);
          AllKept(before, indexer, tx.hash);
          rows := before;
          return false;
        }
        ghost var less := rows;
        rows := rows[key := Row(tx.head, tx.transfers[i].leg, now)];
        assert rows - {key} == less;
        HoldsMore(rows, indexer, tx, i, now);
        OwnKey(indexer, tx, i);
        InsertKept(before, less, indexer, tx.hash, key, rows[key]);
      }
      assert tx.transfers[..|tx.transfers|] == tx.transfers;
      assert tx.(transfers := tx.transfers) == tx;
      ok := true;
    }

    lemma Deleted(before: map<RowKey, Row>, rows: map<RowKey, Row>, indexer: nat, tx: StoredTx, now: Time)
      requires rows == map k | k in before && !Owns(k, indexer, tx.hash) :: before[k]
      ensures Holds(rows, indexer, tx.(transfers := tx.transfers[..0]), now) && OthersKept(before, rows, indexer, tx.hash)
      ensures DistinctIndexes(tx.transfers[..0])
    {
    }

    lemma OwnKey(indexer: nat, tx: StoredTx, i: nat)
      requires i < |tx.transfers|
      ensures Owns(KeyAt(indexer, tx, i), indexer, tx.hash)
    {
    }

    lemma AllKept(rows: map<RowKey, Row>, indexer: nat, hash: Hash)
      ensures OthersKept(rows, rows, indexer, hash)
    {
    }

    lemma InsertKept(before: map<RowKey, Row>, rows: map<RowKey, Row>, indexer: nat, hash: Hash, key: RowKey, row: Row)
      requires OthersKept(before, rows, indexer, hash) && Owns(key, indexer, hash)
      ensures OthersKept(before, rows[key := row], indexer, hash)
    {
    }

    lemma LegsClash(rows: map<RowKey, Row>, indexer: nat, tx: StoredTx, i: nat, now: Time)
      requires i < |tx.transfers| && KeyAt(indexer, tx, i) in rows
      requires Holds(rows, indexer, tx.(transfers := tx.transfers[..i]), now)
      ensures !DistinctIndexes(tx.transfers)
    {
      var less := tx.(transfers := tx.transfers[..i]);
      var j :| 0 <= j < |less.transfers| && KeyAt(indexer, less, j) == KeyAt(indexer, tx, i);
      assert IndexOf(tx.transfers[j]) == IndexOf(tx.transfers[i]);
    }

    lemma HoldsMore(rows: map<RowKey, Row>, indexer: nat, tx: StoredTx, i: nat, now: Time)
      requires i < |tx.transfers|
      requires var key := KeyAt(indexer, tx, i);
               && key in rows && rows[key] == Row(tx.head, tx.transfers[i].leg, now)
               && Holds(rows - {key}, indexer, tx.(transfers := tx.transfers[..i]), now)
      ensures Holds(rows, indexer, tx.(transfers := tx.transfers[..i + 1]), now)
      ensures DistinctIndexes(tx.transfers[..i]) ==> DistinctIndexes(tx.transfers[..i + 1])
    {
      hide DistinctIndexes;
      var key, less, more := KeyAt(indexer, tx, i), tx.(transfers := tx.transfers[..i]), tx.(transfers := tx.transfers[..i + 1]);
      forall j | 0 <= j < |more.transfers|
        ensures KeyAt(indexer, more, j) in rows && rows[KeyAt(indexer, more, j)] == Row(more.head, more.transfers[j].leg, now)
      {
        if j < i { assert KeyAt(indexer, less, j) == KeyAt(indexer, more, j); }
      }
      forall k | k in rows && Owns(k, indexer, tx.hash) ensures exists j :: 0 <= j < |more.transfers| && KeyAt(indexer, more, j) == k {
        if k == key {
          assert KeyAt(indexer, more, i) == k;
        } else {
          var j :| 0 <= j < |less.transfers| && KeyAt(indexer, less, j) == k;
          assert KeyAt(indexer, more, j) == k;
        }
      }
      DistinctMore(rows - {key}, indexer, tx, i, now);
    }

    lemma DistinctMore(rows: map<RowKey, Row>, indexer: nat, tx: StoredTx, i: nat, now: Time)
      requires i < |tx.transfers| && KeyAt(indexer, tx, i) !in rows
      requires Holds(rows, indexer, tx.(transfers := tx.transfers[..i]), now)
      ensures DistinctIndexes(tx.transfers[..i]) ==> DistinctIndexes(tx.transfers[..i + 1])
    {
      var less := tx.(transfers := tx.transfers[..i]);
      forall j | 0 <= j < i ensures IndexOf(tx.transfers[j]) != IndexOf(tx.transfers[i]) {
        assert KeyAt(indexer, less, j) in rows;
      }
    }

    /** A terminal status on every leg row; false when the transaction has none. */
    method UpdateTransactionStatus(indexer: nat, hash: Hash, status: EventType, replacedBy: Option<Hash>, now: Time)
      returns (updated: bool)
      requires Valid()
      modifies this
      ensures Valid()
      ensures updated <==> exists k :: k in old(rows) && Owns(k, indexer, hash)
      ensures rows.Keys == old(rows).Keys && OthersKept(old(rows), rows, indexer, hash)
      ensures forall k :: k in rows && Owns(k, indexer, hash) ==>
        rows[k] == Row(old(rows)[k].head.(status := status, replacedBy := replacedBy), old(rows)[k].leg, now)
    {
      updated := exists k :: k in rows && Owns(k, indexer, hash);
      rows := map k | k in rows :: if Owns(k, indexer, hash)
        then Row(rows[k].head.(status := status, replacedBy := replacedBy), rows[k].leg, now) else rows[k];
    }

    /** The query's ORDER BY: keys of the active rows, by transaction and index. */
    method ActiveKeys(indexer: nat) returns (keys: seq<RowKey>)
      ensures KeySorted(keys)
      ensures forall k :: k in keys <==> k in rows && k.indexer == indexer && Active(rows[k].head.status)
    {
      keys := [];
      var rest := set k | k in rows && k.indexer == indexer && Active(rows[k].head.status);
      ghost var all := rest;
      while rest != {}
        invariant rest <= all && KeySorted(keys)
        invariant forall k :: k in keys <==> k in all && k !in rest
        invariant forall i, k :: 0 <= i < |keys| && k in rest ==> KeyLess(keys[i], k)
        decreases rest
      {
        ghost var least := HasLeast(rest, indexer);
        var k :| k in rest && forall j :: j in rest && j != k ==> KeyLess(k, j);
        keys := keys + [k];
        rest := rest - {k};
      }
    }

    /** Reassembles the per-leg rows into transactions. */
    method LoadActiveTransactions(indexer: nat) returns (out: seq<StoredTx>)
      requires Valid()
      ensures Loaded(rows, indexer, out)
    {
      hide Grouped, TxLoaded, KeyLess;
      var keys := ActiveKeys(indexer);
      out := [];
      NothingGrouped(rows, indexer);
      for n := 0 to |keys|
        invariant Grouped(rows, indexer, keys[..n], out)
      {
        assert keys[..n + 1] == keys[..n] + [keys[n]] && keys[n] in keys;
        JoinGroups(rows, indexer, keys[..n], out, keys[n]);
        ghost var joined := Join(out, keys[n], rows[keys[n]]);
        var k, row := keys[n], rows[keys[n]];
        assert [] + [Restored(row, k.index)] == [Restored(row, k.index)];
        if |out| == 0 || out[|out| - 1].hash != k.hash {
          out := out + [StoredTx(k.hash, row.head, [])];
        }
        out := out[|out| - 1 := out[|out| - 1].(transfers := out[|out| - 1].transfers + [Restored(row, k.index)])];
        assert out == joined;
      }
      assert keys[..|keys|] == keys;
      GroupedLoads(rows, indexer, keys, out);
    }
  }

  // ---------------------------------------------------------------- round trip

  /** What a save and a load make of a leg: the transaction's sender and nonce replace the leg's. */
  function Restamped(tx: StoredTx, t: Transfer): Transfer {
    t.(txSender := tx.head.sender, txNonce := tx.head.nonce)
  }

  /** The same transaction up to leg order, with restamped legs. */
  ghost predicate Reassembled(tx: StoredTx, loaded: StoredTx) {
    && loaded.hash == tx.hash && loaded.head == tx.head
    && |loaded.transfers| == |tx.transfers| && IndexSorted(loaded.transfers)
    && (forall i :: 0 <= i < |tx.transfers| ==>
          tx.transfers[i].(txSender := tx.head.sender, txNonce := tx.head.nonce) in loaded.transfers)
  }

  /** An active stored transaction comes back from a load, its legs in log-index order. */
  lemma RowRoundTrip(rows: map<RowKey, Row>, indexer: nat, tx: StoredTx, now: Time, out: seq<StoredTx>)
    requires Loaded(rows, indexer, out) && Holds(rows, indexer, tx, now)
    requires Active(tx.head.status) && tx.transfers != [] && DistinctIndexes(tx.transfers)
    ensures exists j :: 0 <= j < |out| && Reassembled(tx, out[j])
  {
    hide Holds, Loaded, HashSorted, HasLeg, Found, DistinctIndexes;
    var j := FirstLegFound(rows, indexer, tx, now, out);
    forall i | 0 <= i < |tx.transfers| ensures Restamped(tx, tx.transfers[i]) in out[j].transfers {
      LegComesBack(rows, indexer, tx, now, out, j, i);
    }
    forall p | 0 <= p < |out[j].transfers| ensures out[j].transfers[p] in Legs(tx) {
      LegWasThere(rows, indexer, tx, now, out, j, p);
    }
    SameCount(tx, out[j]);
    assert Reassembled(tx, out[j]);
  }

  lemma FirstLegFound(rows: map<RowKey, Row>, indexer: nat, tx: StoredTx, now: Time, out: seq<StoredTx>) returns (j: nat)
    requires Loaded(rows, indexer, out) && Holds(rows, indexer, tx, now)
    requires Active(tx.head.status) && tx.transfers != []
    ensures j < |out| && out[j].hash == tx.hash && out[j].head == tx.head && IndexSorted(out[j].transfers)
  {
    var first := KeyAt(indexer, tx, 0);
    assert first in rows && rows[first] == Row(tx.head, tx.transfers[0].leg, now);
    assert Found(indexer, out, first);
    j :| 0 <= j < |out| && HasLeg(indexer, out[j], first);
    assert TxLoaded(rows, indexer, out[j]);
    var k := KeyAt(indexer, out[j], 0);
    var i :| 0 <= i < |tx.transfers| && KeyAt(indexer, tx, i) == k;
    assert rows[k].head == tx.head;
  }

  function Legs(tx: StoredTx): seq<Transfer> {
    seq(|tx.transfers|, i requires 0 <= i < |tx.transfers| => Restamped(tx, tx.transfers[i]))
  }

  /** An active row of a loaded transaction is one of its legs. */
  lemma FoundAt(rows: map<RowKey, Row>, indexer: nat, out: seq<StoredTx>, j: nat, k: RowKey)
    requires Loaded(rows, indexer, out) && j < |out| && k in rows && Owns(k, indexer, out[j].hash) && Active(rows[k].head.status)
    ensures HasLeg(indexer, out[j], k)
  {
    hide TxLoaded;
    assert Found(indexer, out, k);
    var jj :| 0 <= jj < |out| && HasLeg(indexer, out[jj], k);
    assert jj == j;
  }

  lemma LoadedAt(rows: map<RowKey, Row>, indexer: nat, out: seq<StoredTx>, j: nat)
    requires Loaded(rows, indexer, out) && j < |out|
    ensures TxLoaded(rows, indexer, out[j])
  {
  }

  lemma LegComesBack(rows: map<RowKey, Row>, indexer: nat, tx: StoredTx, now: Time, out: seq<StoredTx>, j: nat, i: nat)
    requires Loaded(rows, indexer, out) && Holds(rows, indexer, tx, now) && Active(tx.head.status)
    requires j < |out| && out[j].hash == tx.hash && i < |tx.transfers|
    ensures Restamped(tx, tx.transfers[i]) in out[j].transfers
  {
    hide Loaded, IndexSorted;
    var k := KeyAt(indexer, tx, i);
    assert k in rows && rows[k] == Row(tx.head, tx.transfers[i].leg, now);
    FoundAt(rows, indexer, out, j, k);
    var p :| 0 <= p < |out[j].transfers| && KeyAt(indexer, out[j], p) == k;
    LoadedAt(rows, indexer, out, j);
    assert out[j].transfers[p] == Restored(rows[k], k.index) == Restamped(tx, tx.transfers[i]);
  }

  lemma LegWasThere(rows: map<RowKey, Row>, indexer: nat, tx: StoredTx, now: Time, out: seq<StoredTx>, j: nat, p: nat)
    requires Loaded(rows, indexer, out) && Holds(rows, indexer, tx, now)
    requires j < |out| && out[j].hash == tx.hash && p < |out[j].transfers|
    ensures out[j].transfers[p] in Legs(tx)
  {
    assert TxLoaded(rows, indexer, out[j]);
    var k := KeyAt(indexer, out[j], p);
    assert k in rows && Owns(k, indexer, tx.hash);
    var i :| 0 <= i < |tx.transfers| && KeyAt(indexer, tx, i) == k;
    assert rows[k] == Row(tx.head, tx.transfers[i].leg, now);
    assert out[j].transfers[p] == Restored(rows[k], k.index) == Restamped(tx, tx.transfers[i]) == Legs(tx)[i];
  }

  lemma SameCount(tx: StoredTx, loaded: StoredTx)
    requires DistinctIndexes(tx.transfers) && IndexSorted(loaded.transfers)
    requires forall i :: 0 <= i < |tx.transfers| ==> Restamped(tx, tx.transfers[i]) in loaded.transfers
    requires forall p :: 0 <= p < |loaded.transfers| ==> loaded.transfers[p] in Legs(tx)
    ensures |loaded.transfers| == |tx.transfers|
  {
    var legs := Legs(tx);
    forall i, j | 0 <= i < j < |legs| ensures legs[i] != legs[j] {
      assert IndexOf(legs[i]) == IndexOf(tx.transfers[i]) && IndexOf(legs[j]) == IndexOf(tx.transfers[j]);
    }
    forall p, q | 0 <= p < q < |loaded.transfers| ensures loaded.transfers[p] != loaded.transfers[q] {
      assert IndexOf(loaded.transfers[p]) < IndexOf(loaded.transfers[q]);
    }
    forall t | t in legs ensures t in loaded.transfers {
      var i :| 0 <= i < |legs| && legs[i] == t;
      assert Restamped(tx, tx.transfers[i]) == t;
    }
    NoMore(legs, loaded.transfers);
    NoMore(loaded.transfers, legs);
  }

  /** A duplicate-free list is no longer than a list it is contained in. */
  lemma {:induction false} NoMore(a: seq<Transfer>, b: seq<Transfer>)
    requires forall i, j :: 0 <= i < j < |a| ==> a[i] != a[j]
    requires forall t :: t in a ==> t in b
    ensures |a| <= |b|
  {
    if a == [] {
    } else {
      var init, last := a[..|a| - 1], a[|a| - 1];
      assert last in b;
      var k :| 0 <= k < |b| && b[k] == last;
      var rest := b[..k] + b[k + 1..];
      forall t | t in init ensures t in rest {
        assert t in a && t != last;
        var j :| 0 <= j < |b| && b[j] == t;
        assert if j < k then rest[j] == t else rest[j - 1] == t;
      }
      NoMore(init, rest);
    }
  }
}
