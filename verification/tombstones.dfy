/**
 The bounded memory of terminal transactions.

 The tracker keeps a map of live tombstones next to a FIFO of eviction entries. Entries go stale
 when a hash is buried again or its tombstone is cleared, are skipped on eviction by their sequence
 number, and are compacted away when they pile up. The theorems below say that all of this machinery
 is a plain queue of at most `CAP` distinct hashes: `Bury` moves its hash to the back and drops the
 front on overflow, `Clear` deletes its hash.
 */
module Tombstones {
  import opened Types

  const CAP: nat := 8192

  datatype Tombstone = Tombstone(typ: EventType, seqNo: nat)

  /** One FIFO eviction-order entry. */
  datatype Ref = Ref(hash: Hash, seqNo: nat)

  datatype Memory = Memory(live: map<Hash, Tombstone>, fifo: seq<Ref>, last: nat)

  const EMPTY: Memory := Memory(map[], [], 0)

  predicate IsLive(live: map<Hash, Tombstone>, ref: Ref) {
    ref.hash in live && live[ref.hash].seqNo == ref.seqNo
  }

  /** Takes the front FIFO entry off, with the tombstone it is still tied to. */
  function PopFront(m: Memory): Memory
    requires m.fifo != []
  {
    Memory(if IsLive(m.live, m.fifo[0]) then m.live - {m.fifo[0].hash} else m.live, m.fifo[1..], m.last)
  }

  /** Drops FIFO entries from the front until the map fits. */
  function Evict(m: Memory): Memory
    decreases |m.fifo|
  {
    if |m.live| > CAP && |m.fifo| > 0 then Evict(PopFront(m)) else m
  }

  function LiveRefs(live: map<Hash, Tombstone>, fifo: seq<Ref>): seq<Ref> {
    if fifo == [] then []
    else (if IsLive(live, fifo[0]) then [fifo[0]] else []) + LiveRefs(live, fifo[1..])
  }

  function Compact(m: Memory): Memory {
    if |m.fifo| > 2 * CAP then m.(fifo := LiveRefs(m.live, m.fifo)) else m
  }

  function Insert(m: Memory, hash: Hash, typ: EventType): Memory {
    Memory(m.live[hash := Tombstone(typ, m.last + 1)], m.fifo + [Ref(hash, m.last + 1)], m.last + 1)
  }

  function Bury(m: Memory, hash: Hash, typ: EventType): Memory {
    Compact(Evict(Insert(m, hash, typ)))
  }

  function Clear(m: Memory, hash: Hash): Memory {
    m.(live := m.live - {hash})
  }

  // ---------------------------------------------------------------- invariant

  ghost predicate Increasing(fifo: seq<Ref>) {
    forall i, j :: 0 <= i < j < |fifo| ==> fifo[i].seqNo < fifo[j].seqNo
  }

  /** Every live tombstone has a FIFO entry; strict order makes that entry the only one. */
  ghost predicate Tied(m: Memory) {
    && Increasing(m.fifo)
    && (forall ref :: ref in m.fifo ==> ref.seqNo <= m.last)
    && (forall h :: h in m.live ==> Ref(h, m.live[h].seqNo) in m.fifo)
  }

  ghost predicate Valid(m: Memory) {
    Tied(m) && |m.live| <= CAP && |m.fifo| <= 2 * CAP
  }

  // ---------------------------------------------------------------- the queue it stands for

  datatype Entry = Entry(hash: Hash, typ: EventType, seqNo: nat)

  ghost function Entries(live: map<Hash, Tombstone>, fifo: seq<Ref>): seq<Entry> {
    if fifo == [] then []
    else
      (if IsLive(live, fifo[0]) then [Entry(fifo[0].hash, live[fifo[0].hash].typ, fifo[0].seqNo)] else [])
      + Entries(live, fifo[1..])
  }

  /** The live tombstones, oldest burial first. */
  ghost function Queue(m: Memory): seq<Entry> {
    Entries(m.live, m.fifo)
  }

  ghost function Without(q: seq<Entry>, hash: Hash): seq<Entry> {
    if q == [] then []
    else (if q[0].hash == hash then [] else [q[0]]) + Without(q[1..], hash)
  }

  /** The reference behaviour of a burial: to the back of the queue, the front leaves on overflow. */
  ghost function QueueBury(q: seq<Entry>, hash: Hash, typ: EventType, seqNo: nat): seq<Entry> {
    var q' := Without(q, hash) + [Entry(hash, typ, seqNo)];
    if |q'| > CAP then q'[1..] else q'
  }

  // ---------------------------------------------------------------- counting

  /** A tombstone and an entry of the queue are the same thing seen twice. */
  lemma {:induction false} EntriesMembers(live: map<Hash, Tombstone>, fifo: seq<Ref>, e: Entry)
    ensures e in Entries(live, fifo)
        <==> Ref(e.hash, e.seqNo) in fifo && e.hash in live && live[e.hash] == Tombstone(e.typ, e.seqNo)
  {
    if fifo == [] {
    } else {
      EntriesMembers(live, fifo[1..], e);
      assert fifo == [fifo[0]] + fifo[1..];
    }
  }

  lemma {:induction false} EntriesSame(live: map<Hash, Tombstone>, live': map<Hash, Tombstone>, hash: Hash, fifo: seq<Ref>)
    requires forall ref :: ref in fifo ==> (IsLive(live', ref) <==> IsLive(live, ref) && ref.hash != hash)
    requires forall h :: h in live && h in live' && h != hash ==> live[h] == live'[h]
    ensures Entries(live', fifo) == Without(Entries(live, fifo), hash)
  {
    if fifo == [] {
    } else {
      assert fifo[0] in fifo;
      EntriesSame(live, live', hash, fifo[1..]);
      var rest := Entries(live, fifo[1..]);
      if IsLive(live, fifo[0]) {
        var e := Entry(fifo[0].hash, live[fifo[0].hash].typ, fifo[0].seqNo);
        assert ([e] + rest)[1..] == rest;
      } else {
        assert [] + rest == rest;
      }
    }
  }

  lemma {:induction false} EntriesConcat(live: map<Hash, Tombstone>, a: seq<Ref>, b: seq<Ref>)
    ensures Entries(live, a + b) == Entries(live, a) + Entries(live, b)
  {
    if a == [] {
      assert a + b == b;
    } else {
      EntriesConcat(live, a[1..], b);
      assert (a + b)[0] == a[0] && (a + b)[1..] == a[1..] + b;
      var own := if IsLive(live, a[0]) then [Entry(a[0].hash, live[a[0].hash].typ, a[0].seqNo)] else [];
      assert own + (Entries(live, a[1..]) + Entries(live, b)) == own + Entries(live, a[1..]) + Entries(live, b);
    }
  }

  lemma RemoveOne(live: map<Hash, Tombstone>, hash: Hash)
    requires hash in live
    ensures |live - {hash}| == |live| - 1
  {
    assert (live - {hash}).Keys == live.Keys - {hash};
  }

  /** The queue is as long as the map is large. */
  lemma {:induction false} EntriesCount(live: map<Hash, Tombstone>, fifo: seq<Ref>, last: nat)
    requires Tied(Memory(live, fifo, last))
    ensures |Entries(live, fifo)| == |live|
    decreases |fifo|
  {
    if fifo == [] {
      assert forall h :: h !in live;
      assert live == map[];
    } else {
      var ref, rest := fifo[0], fifo[1..];
      assert fifo == [ref] + rest;
      if IsLive(live, ref) {
        var live' := live - {ref.hash};
        HeadLeaves(live, fifo, last);
        EntriesCount(live', rest, last);
        RemoveOne(live, ref.hash);
      } else {
        HeadLeaves(live, fifo, last);
        EntriesCount(live, rest, last);
      }
    }
  }

  /** No later entry of an ordered FIFO is tied to the front's tombstone. */
  lemma FrontIsTiedOnce(live: map<Hash, Tombstone>, fifo: seq<Ref>, r: Ref)
    requires Increasing(fifo) && fifo != [] && IsLive(live, fifo[0]) && r in fifo[1..]
    ensures IsLive(live, r) <==> IsLive(live - {fifo[0].hash}, r)
  {
    var i :| 0 <= i < |fifo[1..]| && fifo[1..][i] == r;
    assert fifo[0].seqNo < fifo[i + 1].seqNo;
  }

  /** Popping the FIFO front keeps the tie, and takes exactly the queue's front with it when it was live. */
  lemma HeadLeaves(live: map<Hash, Tombstone>, fifo: seq<Ref>, last: nat)
    requires Tied(Memory(live, fifo, last)) && fifo != []
    ensures var live' := if IsLive(live, fifo[0]) then live - {fifo[0].hash} else live;
            && Tied(Memory(live', fifo[1..], last))
            && Entries(live', fifo[1..]) == Entries(live, fifo[1..])
  {
    var rest := fifo[1..];
    var live' := if IsLive(live, fifo[0]) then live - {fifo[0].hash} else live;
    FrontLeavesTied(live, fifo, last);
    forall r | r in rest ensures IsLive(live, r) <==> IsLive(live', r) {
      if IsLive(live, fifo[0]) { FrontIsTiedOnce(live, fifo, r); }
    }
    hide Tied, IsLive;
    EntriesAgree(live, live', rest);
  }

  lemma FrontLeavesTied(live: map<Hash, Tombstone>, fifo: seq<Ref>, last: nat)
    requires Tied(Memory(live, fifo, last)) && fifo != []
    ensures Tied(Memory(if IsLive(live, fifo[0]) then live - {fifo[0].hash} else live, fifo[1..], last))
  {
    assert fifo == [fifo[0]] + fifo[1..];
    forall h | h in live && Ref(h, live[h].seqNo) != fifo[0] ensures Ref(h, live[h].seqNo) in fifo[1..] {
      assert Ref(h, live[h].seqNo) in fifo;
    }
  }

  lemma {:induction false} EntriesAgree(live: map<Hash, Tombstone>, live': map<Hash, Tombstone>, fifo: seq<Ref>)
    requires forall ref :: ref in fifo ==> (IsLive(live', ref) <==> IsLive(live, ref))
    requires forall h :: h in live && h in live' ==> live[h] == live'[h]
    ensures Entries(live', fifo) == Entries(live, fifo)
  {
    if fifo == [] {
    } else {
      assert fifo[0] in fifo;
      EntriesAgree(live, live', fifo[1..]);
    }
  }

  // ---------------------------------------------------------------- refinement

  lemma PopFrontRefines(m: Memory)
    requires Tied(m) && m.fifo != []
    ensures var m' := PopFront(m);
            && Tied(m')
            && if IsLive(m.live, m.fifo[0])
               then |m'.live| == |m.live| - 1 && Queue(m) != [] && Queue(m') == Queue(m)[1..]
               else m'.live == m.live && Queue(m') == Queue(m)
  {
    HeadLeaves(m.live, m.fifo, m.last);
    if IsLive(m.live, m.fifo[0]) {
      RemoveOne(m.live, m.fifo[0].hash);
    }
  }

  lemma {:induction false} EvictRefines(m: Memory)
    requires Tied(m) && |m.live| <= CAP + 1
    ensures var m' := Evict(m);
            && Tied(m') && |m'.live| <= CAP && m'.last == m.last && |m'.fifo| <= |m.fifo|
            && (|m.live| > CAP ==> Queue(m) != [])
            && Queue(m') == if |m.live| > CAP then Queue(m)[1..] else Queue(m)
    decreases |m.fifo|
  {
    EntriesCount(m.live, m.fifo, m.last);
    if |m.live| > CAP {
      assert m.fifo != [];
      PopFrontRefines(m);
      EvictRefines(PopFront(m));
    }
  }

  lemma {:induction false} LiveRefsMembers(live: map<Hash, Tombstone>, fifo: seq<Ref>)
    ensures forall ref :: ref in LiveRefs(live, fifo) <==> ref in fifo && IsLive(live, ref)
  {
    if fifo == [] {
    } else {
      LiveRefsMembers(live, fifo[1..]);
      assert fifo == [fifo[0]] + fifo[1..];
    }
  }

  lemma FrontIsOldest(fifo: seq<Ref>, r: Ref)
    requires Increasing(fifo) && fifo != [] && r in fifo[1..]
    ensures fifo[0].seqNo < r.seqNo
  {
    var k :| 0 <= k < |fifo[1..]| && fifo[1..][k] == r;
    assert fifo[0].seqNo < fifo[k + 1].seqNo;
  }

  lemma {:induction false} LiveRefsIncreasing(live: map<Hash, Tombstone>, fifo: seq<Ref>)
    requires Increasing(fifo)
    ensures Increasing(LiveRefs(live, fifo))
  {
    hide IsLive;
    if fifo == [] {
    } else {
      LiveRefsIncreasing(live, fifo[1..]);
      LiveRefsMembers(live, fifo[1..]);
      var kept := LiveRefs(live, fifo[1..]);
      forall j | 0 <= j < |kept| ensures fifo[0].seqNo < kept[j].seqNo {
        assert kept[j] in kept;
        FrontIsOldest(fifo, kept[j]);
      }
    }
  }

  /** Compaction keeps exactly the live entries, in order. */
  lemma {:induction false} LiveRefsKeepsQueue(live: map<Hash, Tombstone>, fifo: seq<Ref>)
    ensures Entries(live, LiveRefs(live, fifo)) == Entries(live, fifo)
    ensures |LiveRefs(live, fifo)| == |Entries(live, fifo)|
  {
    if fifo == [] {
    } else {
      var ref := fifo[0];
      LiveRefsKeepsQueue(live, fifo[1..]);
      var kept := LiveRefs(live, fifo[1..]);
      if IsLive(live, ref) {
        assert ([ref] + kept)[0] == ref && ([ref] + kept)[1..] == kept;
        assert LiveRefs(live, fifo) == [ref] + kept;
      } else {
        assert LiveRefs(live, fifo) == [] + kept == kept;
        assert Entries(live, fifo) == [] + Entries(live, fifo[1..]) == Entries(live, fifo[1..]);
      }
    }
  }

  lemma InsertTied(m: Memory, hash: Hash, typ: EventType)
    requires Valid(m)
    ensures var m' := Insert(m, hash, typ); Tied(m') && |m'.live| <= CAP + 1
  {
    hide Increasing;
    var m' := Insert(m, hash, typ);
    var ref := Ref(hash, m.last + 1);
    assert m'.live.Keys == m.live.Keys + {hash};
    assert ref in m'.fifo by { assert m'.fifo[|m.fifo|] == ref; }
    forall h | h in m'.live ensures Ref(h, m'.live[h].seqNo) in m'.fifo {
      if h != hash { assert Ref(h, m.live[h].seqNo) in m.fifo; }
    }
    AppendIncreasing(m.fifo, ref);
  }

  lemma AppendIncreasing(fifo: seq<Ref>, ref: Ref)
    requires Increasing(fifo) && forall r :: r in fifo ==> r.seqNo < ref.seqNo
    ensures Increasing(fifo + [ref])
  {
  }

  lemma SingleEntry(live: map<Hash, Tombstone>, ref: Ref)
    requires IsLive(live, ref)
    ensures Entries(live, [ref]) == [Entry(ref.hash, live[ref.hash].typ, ref.seqNo)]
  {
    assert [ref][1..] == [];
    assert Entries(live, [ref]) == [Entry(ref.hash, live[ref.hash].typ, ref.seqNo)] + Entries(live, []);
  }

  lemma InsertRefines(m: Memory, hash: Hash, typ: EventType)
    requires Valid(m)
    ensures var m' := Insert(m, hash, typ);
            && Tied(m') && |m'.live| <= CAP + 1
            && Queue(m') == Without(Queue(m), hash) + [Entry(hash, typ, m.last + 1)]
  {
    hide Increasing, Without, Entries;
    var m' := Insert(m, hash, typ);
    var ref := Ref(hash, m.last + 1);
    InsertTied(m, hash, typ);
    forall r | r in m.fifo ensures IsLive(m'.live, r) <==> IsLive(m.live, r) && r.hash != hash {
    }
    EntriesConcat(m'.live, m.fifo, [ref]);
    EntriesSame(m.live, m'.live, hash, m.fifo);
    SingleEntry(m'.live, ref);
  }

  /** A burial is a burial in the reference queue, and leaves both the map and the FIFO bounded. */
  lemma BuryRefines(m: Memory, hash: Hash, typ: EventType)
    requires Valid(m)
    ensures var m' := Bury(m, hash, typ);
            && Valid(m') && m'.last == m.last + 1
            && Queue(m') == QueueBury(Queue(m), hash, typ, m.last + 1)
  {
    InsertRefines(m, hash, typ);
    var inserted := Insert(m, hash, typ);
    EntriesCount(inserted.live, inserted.fifo, inserted.last);
    EvictRefines(inserted);
    var evicted := Evict(inserted);
    if |evicted.fifo| > 2 * CAP {
      LiveRefsIncreasing(evicted.live, evicted.fifo);
      LiveRefsKeepsQueue(evicted.live, evicted.fifo);
      LiveRefsMembers(evicted.live, evicted.fifo);
      EntriesCount(evicted.live, evicted.fifo, evicted.last);
    }
  }

  /** Clearing a tombstone deletes it from the reference queue; its FIFO entry goes stale. */
  lemma ClearRefines(m: Memory, hash: Hash)
    requires Valid(m)
    ensures Valid(Clear(m, hash))
    ensures Queue(Clear(m, hash)) == Without(Queue(m), hash)
  {
    var m' := Clear(m, hash);
    assert m'.live.Keys <= m.live.Keys;
    CardinalityMonotone(m'.live.Keys, m.live.Keys);
    EntriesSame(m.live, m'.live, hash, m.fifo);
  }

  lemma {:induction false} CardinalityMonotone(a: set<Hash>, b: set<Hash>)
    requires a <= b
    ensures |a| <= |b|
  {
    assert b == a + (b - a);
  }

  // ---------------------------------------------------------------- what the memory guarantees

  /** `m'` still remembers how `hash` ended, from the very same burial. */
  ghost predicate Remembers(m: Memory, hash: Hash, t: Tombstone) {
    hash in m.live && m.live[hash] == t
  }

  lemma {:induction false} WithoutMembers(q: seq<Entry>, hash: Hash)
    ensures forall e :: e in Without(q, hash) <==> e in q && e.hash != hash
  {
    if q == [] {
    } else {
      WithoutMembers(q[1..], hash);
      assert q == [q[0]] + q[1..];
    }
  }

  lemma {:induction false} EntriesIncreasing(live: map<Hash, Tombstone>, fifo: seq<Ref>)
    requires Increasing(fifo)
    ensures forall i, j :: 0 <= i < j < |Entries(live, fifo)| ==> Entries(live, fifo)[i].seqNo < Entries(live, fifo)[j].seqNo
  {
    if fifo == [] {
    } else {
      var ref, rest := fifo[0], fifo[1..];
      EntriesIncreasing(live, rest);
      var q := Entries(live, rest);
      if IsLive(live, ref) {
        forall j | 0 <= j < |q| ensures ref.seqNo < q[j].seqNo {
          EntriesMembers(live, rest, q[j]);
          var k :| 0 <= k < |rest| && rest[k] == Ref(q[j].hash, q[j].seqNo);
          assert fifo[0].seqNo < fifo[k + 1].seqNo;
        }
      }
    }
  }

  /** Strictly increasing numbers spread at least as far as there are of them. */
  lemma {:induction false} Spread(q: seq<Entry>, k: nat)
    requires forall i, j :: 0 <= i < j < |q| ==> q[i].seqNo < q[j].seqNo
    requires k < |q|
    ensures q[k].seqNo >= q[0].seqNo + k
  {
    if k > 0 { Spread(q, k - 1); }
  }

  /** Overflow drops the front of the queue; being there, it saw `CAP` later burials. */
  lemma FrontIsOld(q: seq<Entry>, e: Entry)
    requires forall i, j :: 0 <= i < j < |q| ==> q[i].seqNo < q[j].seqNo
    requires e in q && |q| > CAP && e !in q[1..]
    ensures q[|q| - 1].seqNo >= e.seqNo + CAP
  {
    assert q == [q[0]] + q[1..];
    Spread(q, |q| - 1);
  }

  lemma QueueLookup(m: Memory, hash: Hash)
    requires Tied(m)
    ensures hash in m.live ==> Entry(hash, m.live[hash].typ, m.live[hash].seqNo) in Queue(m)
    ensures forall e :: e in Queue(m) && e.hash == hash ==> hash in m.live && m.live[hash] == Tombstone(e.typ, e.seqNo)
  {
    if hash in m.live {
      assert Ref(hash, m.live[hash].seqNo) in m.fifo;
      EntriesMembers(m.live, m.fifo, Entry(hash, m.live[hash].typ, m.live[hash].seqNo));
    }
    forall e | e in Queue(m) && e.hash == hash ensures hash in m.live && m.live[hash] == Tombstone(e.typ, e.seqNo) {
      EntriesMembers(m.live, m.fifo, e);
    }
  }

  /**
   A burial of another hash forgets a tombstone only when at least `CAP` burials came after it, and
   changes no tombstone it keeps.
   */
  lemma BuryForgetsOnlyTheOldest(m: Memory, hash: Hash, typ: EventType, other: Hash)
    requires Valid(m) && other != hash && other in m.live
    ensures var m' := Bury(m, hash, typ);
            && (other in m'.live ==> m'.live[other] == m.live[other])
            && (other !in m'.live ==> m'.last - m.live[other].seqNo >= CAP)
            && m'.last > m.live[other].seqNo
  {
    var m', inserted := Bury(m, hash, typ), Insert(m, hash, typ);
    BuryRefines(m, hash, typ);
    InsertRefines(m, hash, typ);
    assert Ref(other, m.live[other].seqNo) in m.fifo;
    EntriesIncreasing(inserted.live, inserted.fifo);
    QueueLookup(inserted, other);
    QueueLookup(m', other);
    var q, e := Queue(inserted), Entry(other, m.live[other].typ, m.live[other].seqNo);
    assert e in q && q[|q| - 1].seqNo == inserted.last;
    hide Bury, Evict, Compact, Entries, Tied, Without;
    if e !in Queue(m') {
      FrontIsOld(q, e);
    }
    if other in m'.live {
      var e' := Entry(other, m'.live[other].typ, m'.live[other].seqNo);
      assert e' in q by { if |q| > CAP { assert e' in q[1..]; } }
    }
  }

  /** A burial is remembered as the newest, and never resurrects a forgotten hash. */
  lemma BuryRemembers(m: Memory, hash: Hash, typ: EventType)
    requires Valid(m)
    ensures var m' := Bury(m, hash, typ);
            && Remembers(m', hash, Tombstone(typ, m'.last))
            && (forall h :: h in m'.live ==> h == hash || h in m.live)
  {
    var m' := Bury(m, hash, typ);
    BuryRefines(m, hash, typ);
    var e := Entry(hash, typ, m'.last);
    var q' := Without(Queue(m), hash) + [e];
    assert q'[|q'| - 1] == e;
    assert e in Queue(m') by {
      if |q'| > CAP { assert q'[1..][|q'| - 2] == e; }
    }
    EntriesMembers(m'.live, m'.fifo, e);
    forall h | h in m'.live && h != hash ensures h in m.live {
      var e' := Entry(h, m'.live[h].typ, m'.live[h].seqNo);
      EntriesMembers(m'.live, m'.fifo, e');
      assert e' in q';
      WithoutMembers(Queue(m), hash);
      EntriesMembers(m.live, m.fifo, e');
    }
  }

  // ---------------------------------------------------------------- in-place compaction

  /**
   Compacts the first `n` entries of the FIFO's backing array in place: the read index runs ahead of
   the write index over one array, and the prefix up to `k` ends up as the live entries in order.
   */
  method CompactInPlace(buf: array<Ref>, live: map<Hash, Tombstone>) returns (k: nat)
    modifies buf
    ensures k <= buf.Length
    ensures buf[..k] == LiveRefs(live, old(buf[..]))
  {
    k := 0;
    var i := 0;
    ghost var was := buf[..];
    while i < buf.Length
      invariant 0 <= k <= i <= buf.Length
      invariant buf[i..] == was[i..]
      invariant buf[..k] == LiveRefs(live, was[..i])
    {
      assert was[..i + 1] == was[..i] + [was[i]];
      LiveRefsSnoc(live, was[..i], was[i]);
      assert buf[i] == was[i] by { assert buf[i..][0] == was[i..][0]; }
      ghost var before := buf[..];
      if IsLive(live, buf[i]) {
        buf[k] := buf[i];
        assert buf[..k + 1] == before[..k] + [was[i]];
        k := k + 1;
      }
      i := i + 1;
      assert buf[i..] == was[i..] by {
        assert before[i - 1..] == was[i - 1..];
        forall j | i <= j < |was| ensures buf[j] == was[j] { assert before[i - 1..][j - i + 1] == was[i - 1..][j - i + 1]; }
      }
    }
    assert was[..i] == was;
  }

  lemma {:induction false} LiveRefsSnoc(live: map<Hash, Tombstone>, fifo: seq<Ref>, ref: Ref)
    ensures LiveRefs(live, fifo + [ref]) == LiveRefs(live, fifo) + if IsLive(live, ref) then [ref] else []
  {
    if fifo == [] {
      assert [ref][1..] == [];
      assert fifo + [ref] == [ref];
    } else {
      LiveRefsSnoc(live, fifo[1..], ref);
      assert (fifo + [ref])[1..] == fifo[1..] + [ref];
    }
  }
}
