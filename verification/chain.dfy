/**
 The ring of recently seen canonical headers, and the chunked walk back to a fork's common ancestor.

 Two references pin the ring down. `Recorded` says what one `Record` does to the set of buffered
 headers, exactly. `History` is the unbounded "last header recorded per number" map the ring stands in
 for; `RingIsHistory` says where the two agree. The walk is proved equal to `Walk`, a walk that looks at
 one number at a time.
 */
module Chain {
  import opened Types

  datatype HeadRef = HeadRef(number: nat, hash: Hash, parent: Hash)

  datatype HeadKind = Extend | Gap | Reorg | Stale

  const ANCESTOR_CHUNK: nat := 8

  function RingDepth(confirmations: nat): nat {
    if confirmations + 16 > 64 then confirmations + 16 else 64
  }

  /** The ring holds 64 headers, or 16 more than a confirmation takes if that is more. */
  lemma RingDepthMeans(confirmations: nat)
    ensures RingDepth(confirmations) >= 64 && RingDepth(confirmations) >= confirmations + 16
    ensures RingDepth(confirmations) == 64 || RingDepth(confirmations) == confirmations + 16
  {
  }

  /** So a block short of its confirmations is above the ring's floor: a reorg that reverts it is walked back to its fork. */
  lemma UnconfirmedInRing(tip: HeadRef, confirmations: nat, blockNum: nat)
    requires blockNum <= tip.number && tip.number + 1 - blockNum < confirmations
    ensures FloorAt(Some(tip), RingDepth(confirmations)) == 0 || FloorAt(Some(tip), RingDepth(confirmations)) + 16 < blockNum
  {
  }

  // ---------------------------------------------------------------- the buffered headers

  type Headers = map<nat, HeadRef>

  /** The effect of one record: `h` is buffered, every other number of its slot is not. */
  ghost function Recorded(buf: Headers, depth: nat, h: HeadRef): Headers
    requires depth > 0
  {
    (map n | n in buf && n % depth != h.number % depth :: buf[n])[h.number := h]
  }

  ghost function RecordedAll(depth: nat, refs: seq<HeadRef>): Headers
    requires depth > 0
  {
    if refs == [] then map[] else Recorded(RecordedAll(depth, refs[..|refs| - 1]), depth, refs[|refs| - 1])
  }

  /** The unbounded view: the last header recorded for each number. */
  ghost function History(refs: seq<HeadRef>): Headers {
    if refs == [] then map[] else History(refs[..|refs| - 1])[refs[|refs| - 1].number := refs[|refs| - 1]]
  }

  ghost function Highest(refs: seq<HeadRef>): nat {
    if refs == [] then 0
    else
      var h := Highest(refs[..|refs| - 1]);
      if refs[|refs| - 1].number > h then refs[|refs| - 1].number else h
  }

  /** No record ever falls a whole ring length behind the highest number seen. */
  ghost predicate InsideWindow(depth: nat, refs: seq<HeadRef>) {
    forall k :: 0 <= k < |refs| ==> Highest(refs[..k]) < refs[k].number + depth
  }

  lemma {:induction false} HistoryBelowHighest(refs: seq<HeadRef>, n: nat)
    requires n in History(refs)
    ensures n <= Highest(refs) && History(refs)[n].number == n
  {
    var init, last := refs[..|refs| - 1], refs[|refs| - 1];
    if n != last.number { HistoryBelowHighest(init, n); }
  }

  lemma SlotMates(depth: nat, a: nat, b: nat)
    requires depth > 0 && a < b && a % depth == b % depth
    ensures a + depth <= b
  {
    assert a == depth * (a / depth) + a % depth;
    assert b == depth * (b / depth) + b % depth;
    if a / depth >= b / depth {
      MulMonotone(depth, b / depth, a / depth);
    } else {
      MulMonotone(depth, a / depth + 1, b / depth);
    }
  }

  lemma MulMonotone(d: nat, x: nat, y: nat)
    requires x <= y
    ensures d * x <= d * y
  {
  }

  /** While records stay inside the window, the ring is the unbounded history on the last `depth` numbers. */
  lemma {:induction false} RingIsHistory(depth: nat, refs: seq<HeadRef>, n: nat)
    requires depth > 0 && InsideWindow(depth, refs)
    requires Highest(refs) < n + depth
    ensures n in RecordedAll(depth, refs) <==> n in History(refs)
    ensures n in History(refs) ==> RecordedAll(depth, refs)[n] == History(refs)[n]
  {
    if refs == [] {
    } else {
      var init, last := refs[..|refs| - 1], refs[|refs| - 1];
      forall k | 0 <= k < |init| ensures Highest(init[..k]) < init[k].number + depth {
        assert init[..k] == refs[..k];
      }
      RingIsHistory(depth, init, n);
      assert Highest(refs[..|init|]) < refs[|init|].number + depth;
      if n != last.number && n in History(init) && n % depth == last.number % depth {
        HistoryBelowHighest(init, n);
        if n < last.number { SlotMates(depth, n, last.number); } else { SlotMates(depth, last.number, n); }
        assert false;
      }
    }
  }

  /** The ring may miss a header, but what it has is what was last recorded for its number. */
  lemma {:induction false} RingNeverLies(depth: nat, refs: seq<HeadRef>, n: nat)
    requires depth > 0 && n in RecordedAll(depth, refs)
    ensures n in History(refs) && RecordedAll(depth, refs)[n] == History(refs)[n] && History(refs)[n] in refs
  {
    var init, last := refs[..|refs| - 1], refs[|refs| - 1];
    if n != last.number { RingNeverLies(depth, init, n); }
  }

  /** A recorded number the ring misses is at least a whole ring length behind the highest one. */
  lemma MissingIsOld(depth: nat, refs: seq<HeadRef>, n: nat)
    requires depth > 0 && InsideWindow(depth, refs)
    requires n in History(refs) && n !in RecordedAll(depth, refs)
    ensures n + depth <= Highest(refs)
  {
    if Highest(refs) < n + depth { RingIsHistory(depth, refs, n); }
  }

  /** An overlong newest-first scan breaks it: block `depth` numbers below the head evicts the head. */
  lemma OverlongScanEvictsTheHead(depth: nat, head: HeadRef, late: HeadRef)
    requires depth > 0 && head.number == late.number + depth
    ensures head.number in History([head, late]) && head.number !in RecordedAll(depth, [head, late])
  {
    assert [head, late][..1] == [head] && [head][..0] == [];
    assert History([head]) == map[head.number := head];
    ModPlus(late.number, depth);
  }

  lemma ModPlus(n: nat, depth: nat)
    requires depth > 0
    ensures (n + depth) % depth == n % depth
  {
    var q, r := (n + depth) / depth, (n + depth) % depth;
    assert n + depth == depth * q + r;
    assert n == depth * (n / depth) + n % depth;
    assert depth * (n / depth) + depth == depth * (n / depth + 1);
    if n / depth + 1 < q {
      MulMonotone(depth, n / depth + 2, q);
    } else if q < n / depth + 1 {
      MulMonotone(depth, q, n / depth);
    }
  }

  // ---------------------------------------------------------------- the node, as the walk sees it

  datatype Fetched = Got(hash: Hash) | Missing(error: nat)

  /** Per-number answers, and which of the walk's batch requests fail as a whole. */
  datatype Remote = Remote(header: nat -> Fetched, call: nat -> Option<nat>)

  datatype Outcome = Found(ancestor: nat) | Deep(floor: nat) | Failure(error: nat)

  /**
   The reference: one number at a time, newest first, `seen` candidates so far. Only the request that
   brings every eighth candidate can fail as a whole.
   */
  ghost function Walk(buf: Headers, remote: Remote, n: nat, floor: nat, seen: nat): Outcome
    decreases n, 1
  {
    if n <= floor then Deep(floor)
    else if n !in buf then Walk(buf, remote, n - 1, floor, seen)
    else Visit(buf, remote, n, floor, seen)
  }

  ghost function Visit(buf: Headers, remote: Remote, n: nat, floor: nat, seen: nat): Outcome
    requires n in buf && n > floor
    decreases n, 0
  {
    if seen % 8 == 0 && remote.call(seen / 8).Some? then Failure(remote.call(seen / 8).value)
    else
      match remote.header(n)
      case Missing(e) => Failure(e)
      case Got(hash) => if hash == buf[n].hash then Found(n) else Walk(buf, remote, n - 1, floor, seen + 1)
  }

  ghost predicate Agrees(buf: Headers, remote: Remote, n: nat) {
    n in buf && remote.header(n) == Got(buf[n].hash)
  }

  /** What the reference finds: the greatest buffered number both chains agree on, or that there is none. */
  lemma {:induction false} WalkFindsGreatest(buf: Headers, remote: Remote, from: nat, floor: nat, seen: nat)
    ensures var r := Walk(buf, remote, from, floor, seen);
            && (r.Found? ==>
                 && floor < r.ancestor <= from && Agrees(buf, remote, r.ancestor)
                 && (forall n :: r.ancestor < n <= from ==> !Agrees(buf, remote, n)))
            && (r.Deep? ==> r.floor == floor && (forall n :: floor < n <= from ==> !Agrees(buf, remote, n)))
    decreases from
  {
    if from <= floor {
    } else if from !in buf {
      WalkFindsGreatest(buf, remote, from - 1, floor, seen);
    } else {
      WalkFindsGreatest(buf, remote, from - 1, floor, seen + 1);
    }
  }

  /** Above the window's edge, walking the ring is walking the unbounded history. */
  lemma {:induction false} WalkOverHistory(depth: nat, refs: seq<HeadRef>, remote: Remote, from: nat, floor: nat, seen: nat)
    requires depth > 0 && InsideWindow(depth, refs) && Highest(refs) < floor + 1 + depth
    ensures Walk(RecordedAll(depth, refs), remote, from, floor, seen) == Walk(History(refs), remote, from, floor, seen)
    decreases from
  {
    if from > floor {
      RingIsHistory(depth, refs, from);
      WalkOverHistory(depth, refs, remote, from - 1, floor, seen);
      WalkOverHistory(depth, refs, remote, from - 1, floor, seen + 1);
    }
  }

  /**
   With the tip lowered, the floor can lie below the window's edge and the ring miss headers there. An
   agreement the walk finds is still one with the history; a greater one it passed over is a whole ring
   length behind the highest number recorded.
   */
  lemma LoweredWalk(depth: nat, refs: seq<HeadRef>, remote: Remote, from: nat, floor: nat)
    requires depth > 0 && InsideWindow(depth, refs)
    ensures var r := Walk(RecordedAll(depth, refs), remote, from, floor, 0);
            && (r.Found? ==>
                 && Agrees(History(refs), remote, r.ancestor)
                 && forall n :: r.ancestor < n <= from && Agrees(History(refs), remote, n) ==> n + depth <= Highest(refs))
            && (r.Deep? ==> forall n :: floor < n <= from && Agrees(History(refs), remote, n) ==> n + depth <= Highest(refs))
  {
    var ring := RecordedAll(depth, refs);
    var r := Walk(ring, remote, from, floor, 0);
    WalkFindsGreatest(ring, remote, from, floor, 0);
    if r.Found? { RingNeverLies(depth, refs, r.ancestor); }
    forall n | floor < n <= from && Agrees(History(refs), remote, n) && !Agrees(ring, remote, n) ensures n + depth <= Highest(refs) {
      if n in ring {
        RingNeverLies(depth, refs, n);
      } else {
        MissingIsOld(depth, refs, n);
      }
    }
  }

  /** The reference, resumed with the candidates of the current chunk still unvisited. */
  ghost function Resume(buf: Headers, remote: Remote, chunk: seq<nat>, n: nat, floor: nat, seen: nat): Outcome
  {
    if chunk == [] then Walk(buf, remote, n, floor, seen)
    else if seen % ANCESTOR_CHUNK == 0 && remote.call(seen / ANCESTOR_CHUNK).Some?
    then Failure(remote.call(seen / ANCESTOR_CHUNK).value)
    else
      match remote.header(chunk[0])
      case Missing(e) => Failure(e)
      case Got(hash) =>
        if chunk[0] in buf && hash == buf[chunk[0]].hash then Found(chunk[0])
        else Resume(buf, remote, chunk[1..], n, floor, seen + 1)
  }

  lemma {:induction false} ResumeSkips(buf: Headers, remote: Remote, chunk: seq<nat>, n: nat, floor: nat, seen: nat)
    requires n > floor && n !in buf
    ensures Resume(buf, remote, chunk, n, floor, seen) == Resume(buf, remote, chunk, n - 1, floor, seen)
  {
    if chunk == [] {
    } else {
      ResumeSkips(buf, remote, chunk[1..], n, floor, seen + 1);
    }
  }

  lemma {:induction false} ResumeGathers(buf: Headers, remote: Remote, chunk: seq<nat>, n: nat, floor: nat, seen: nat)
    requires n > floor && n in buf
    ensures Resume(buf, remote, chunk, n, floor, seen) == Resume(buf, remote, chunk + [n], n - 1, floor, seen)
  {
    if chunk == [] {
      assert chunk + [n] == [n] && [n][1..] == [];
      assert Resume(buf, remote, [], n - 1, floor, seen + 1) == Walk(buf, remote, n - 1, floor, seen + 1);
      assert Resume(buf, remote, chunk, n, floor, seen) == Visit(buf, remote, n, floor, seen);
    } else {
      ResumeGathers(buf, remote, chunk[1..], n, floor, seen + 1);
      assert (chunk + [n])[1..] == chunk[1..] + [n];
    }
  }

  /** Past the request itself, visiting a chunk's next candidate cannot fail but by its own answer. */
  lemma ResumeOne(buf: Headers, remote: Remote, chunk: seq<nat>, i: nat, n: nat, floor: nat, request: nat)
    requires i < |chunk| <= ANCESTOR_CHUNK && chunk[i] in buf && remote.call(request).None?
    ensures var seen := ANCESTOR_CHUNK * request + i;
            Resume(buf, remote, chunk[i..], n, floor, seen)
            == match remote.header(chunk[i])
               case Missing(e) => Failure(e)
               case Got(hash) =>
                 if hash == buf[chunk[i]].hash then Found(chunk[i])
                 else Resume(buf, remote, chunk[i + 1..], n, floor, seen + 1)
  {
    var seen := ANCESTOR_CHUNK * request + i;
    assert chunk[i..][0] == chunk[i] && chunk[i..][1..] == chunk[i + 1..];
    assert seen % ANCESTOR_CHUNK == i && seen / ANCESTOR_CHUNK == request;
  }

  // ---------------------------------------------------------------- the slots

  ghost function Numbers(slots: seq<HeadRef>): set<nat> {
    set i | 0 <= i < |slots| :: slots[i].number
  }

  /** The headers a slot array still holds, by number. */
  ghost function Buffered(slots: seq<HeadRef>): Headers
    requires |slots| > 0
  {
    map n | n in Numbers(slots) && slots[n % |slots|].number == n && slots[n % |slots|].hash != ZERO_HASH
      :: slots[n % |slots|]
  }

  lemma BufferedAt(slots: seq<HeadRef>, n: nat)
    requires |slots| > 0
    ensures n in Buffered(slots) <==> slots[n % |slots|].number == n && slots[n % |slots|].hash != ZERO_HASH
  {
    if slots[n % |slots|].number == n { assert n in Numbers(slots); }
  }

  lemma RecordInSlot(slots: seq<HeadRef>, h: HeadRef)
    requires |slots| > 0 && h.hash != ZERO_HASH
    ensures Buffered(slots[h.number % |slots| := h]) == Recorded(Buffered(slots), |slots|, h)
  {
    var slots' := slots[h.number % |slots| := h];
    forall n: nat ensures n in Buffered(slots') <==> n in Recorded(Buffered(slots), |slots|, h) {
      BufferedAt(slots, n);
      BufferedAt(slots', n);
    }
  }

  // ---------------------------------------------------------------- snapshots

  /** The buffered headers with numbers in [lo, hi), ascending. */
  ghost function Ascending(buf: Headers, lo: nat, hi: nat): seq<HeadRef>
    decreases hi
  {
    if hi <= lo then [] else Ascending(buf, lo, hi - 1) + if hi - 1 in buf then [buf[hi - 1]] else []
  }

  ghost function Restrict(buf: Headers, lo: nat, hi: nat): Headers {
    map n | n in buf && lo <= n < hi :: buf[n]
  }

  /** Recording a window's snapshot into a fresh ring restores exactly that window. */
  lemma {:induction false} SnapshotRestores(buf: Headers, depth: nat, lo: nat, hi: nat)
    requires depth > 0 && hi <= lo + depth
    requires forall n :: n in buf ==> buf[n].number == n
    ensures RecordedAll(depth, Ascending(buf, lo, hi)) == Restrict(buf, lo, hi)
    decreases hi
  {
    if hi <= lo {
    } else {
      SnapshotRestores(buf, depth, lo, hi - 1);
      if hi - 1 in buf {
        var prev, h := Ascending(buf, lo, hi - 1), buf[hi - 1];
        assert (prev + [h])[..|prev|] == prev;
        var below := Restrict(buf, lo, hi - 1);
        forall n | n in below ensures n % depth != h.number % depth {
          if n % depth == h.number % depth { SlotMates(depth, n, h.number); }
        }
        assert Recorded(below, depth, h) == below[h.number := h];
        assert below[h.number := h] == Restrict(buf, lo, hi);
      } else {
        assert Ascending(buf, lo, hi) == Ascending(buf, lo, hi - 1);
        assert Restrict(buf, lo, hi) == Restrict(buf, lo, hi - 1);
      }
    }
  }

  /** Resolves one accumulated chunk with one batch request. */
  method Check(ghost buf: Headers, remote: Remote, ghost n: nat, ghost floor: nat, request: nat,
               chunk: seq<nat>, locals: seq<HeadRef>) returns (r: Option<Outcome>)
    requires 0 < |chunk| == |locals| <= ANCESTOR_CHUNK
    requires forall i :: 0 <= i < |chunk| ==> chunk[i] in buf && buf[chunk[i]] == locals[i]
    ensures var seen := ANCESTOR_CHUNK * request;
            Resume(buf, remote, chunk, n, floor, seen)
            == if r.Some? then r.value else Walk(buf, remote, n, floor, seen + |chunk|)
  {
    ghost var seen := ANCESTOR_CHUNK * request;
    var failed := remote.call(request);
    if failed.Some? { return Some(Failure(failed.value)); }
    var i := 0;
    assert chunk[0..] == chunk;
    while i < |chunk|
      invariant 0 <= i <= |chunk|
      invariant Resume(buf, remote, chunk, n, floor, seen) == Resume(buf, remote, chunk[i..], n, floor, seen + i)
    {
      ResumeOne(buf, remote, chunk, i, n, floor, request);
      match remote.header(chunk[i]) {
        case Missing(e) => return Some(Failure(e));
        case Got(hash) =>
          if hash == locals[i].hash { return Some(Found(chunk[i])); }
      }
      i := i + 1;
    }
    return None;
  }

  // ---------------------------------------------------------------- the ring

  /** The lowest number a ring of `depth` slots is meant to keep below a tip. */
  function FloorAt(tip: Option<HeadRef>, depth: nat): (floor: nat)
    ensures tip.None? ==> floor == 0
    ensures tip.Some? && depth > 0 ==> floor <= tip.value.number < floor + depth
    ensures tip.Some? && floor > 0 ==> tip.value.number + 1 == floor + depth
  {
    if tip.None? || tip.value.number < depth - 1 then 0 else tip.value.number - (depth - 1)
  }

  class ChainState {
    const refs: array<HeadRef>
    const depth: nat
    var tip: Option<HeadRef>
    /** Every header ever recorded. */
    ghost var recorded: seq<HeadRef>

    ghost predicate Valid()
      reads this, refs
    {
      && depth > 0 && refs.Length == depth
      && (tip.Some? ==> tip.value.hash != ZERO_HASH && tip.value in recorded)
      && Keeps()
    }

    /** The ring holds what recording every header into it leaves. */
    ghost predicate Keeps()
      reads this, refs
      requires depth > 0 && refs.Length == depth
    {
      Buffered(refs[..]) == RecordedAll(depth, recorded)
    }

    ghost function Headers(): Headers
      reads this, refs
      requires Valid()
    {
      Buffered(refs[..])
    }

    constructor (confirmations: nat)
      ensures Valid() && tip == None && depth == RingDepth(confirmations)
      ensures Headers() == map[] && recorded == [] && fresh(refs)
    {
      depth := RingDepth(confirmations);
      refs := new HeadRef[RingDepth(confirmations)](_ => HeadRef(0, ZERO_HASH, ZERO_HASH));
      tip, recorded := None, [];
    }

    method Record(h: HeadRef)
      requires Valid() && h.hash != ZERO_HASH
      modifies this`tip, this`recorded, refs
      ensures Valid() && recorded == old(recorded) + [h]
      ensures Headers() == Recorded(old(Headers()), depth, h)
      ensures tip == if old(tip).None? || h.number >= old(tip).value.number then Some(h) else old(tip)
    {
      RecordInSlot(refs[..], h);
      refs[h.number % depth] := h;
      assert refs[..] == old(refs[..])[h.number % depth := h];
      assert (recorded + [h])[..|recorded|] == recorded;
      recorded := recorded + [h];
      if tip.None? || h.number >= tip.value.number {
        tip := Some(h);
      }
    }

    /** The recorded header for a block number, if still buffered. */
    method At(number: nat) returns (r: HeadRef, ok: bool)
      requires Valid()
      ensures ok <==> number in Headers()
      ensures ok ==> r == Headers()[number] && r.number == number && r.hash != ZERO_HASH
    {
      BufferedAt(refs[..], number);
      r := refs[number % depth];
      ok := r.number == number && r.hash != ZERO_HASH;
    }

    /** The lowest block number still guaranteed to be in the buffer. */
    function Floor(): (floor: nat)
      reads this
      ensures floor == FloorAt(tip, depth)
    {
      FloorAt(tip, depth)
    }

    method ResetTip(number: nat)
      requires Valid()
      modifies this`tip
      ensures Valid()
      ensures tip == if number in Headers() then Some(Headers()[number]) else old(tip)
      ensures number in Headers() ==> Headers()[number].number == number
    {
      var r, ok := At(number);
      if ok {
        RingNeverLies(depth, recorded, number);
        tip := Some(r);
      }
    }

    /** The buffered headers of the window in ascending order, for persistence. */
    method Snapshot() returns (out: seq<HeadRef>)
      requires Valid()
      ensures tip.None? ==> out == []
      ensures tip.Some? ==> out == Ascending(Headers(), Floor(), tip.value.number + 1)
    {
      out := [];
      if tip.None? { return; }
      var n := Floor();
      while n <= tip.value.number
        invariant Floor() <= n <= tip.value.number + 1
        invariant out == Ascending(Headers(), Floor(), n)
      {
        var r, ok := At(n);
        if ok {
          out := out + [r];
        }
        n := n + 1;
      }
    }

    /** How a newly announced head relates to the tracked tip. */
    method Classify(h: HeadRef) returns (kind: HeadKind)
      requires Valid()
      ensures kind.Extend? <==> tip.None? || (h.parent == tip.value.hash && h.number == tip.value.number + 1)
      ensures kind.Gap? <==> tip.Some? && h.number > tip.value.number + 1
      ensures kind.Stale? <==> tip.Some? && h.number <= tip.value.number
                               && h.number in Headers() && Headers()[h.number].hash == h.hash
    {
      if tip.None? { return Extend; }
      if h.parent == tip.value.hash && h.number == tip.value.number + 1 { return Extend; }
      if h.number > tip.value.number + 1 { return Gap; }
      if h.number <= tip.value.number {
        var r, ok := At(h.number);
        if ok && r.hash == h.hash { return Stale; }
      }
      return Reorg;
    }

    /**
     The chunked walk gives the reference walk's answer, its error order included: over the ring, and over
     everything ever recorded as long as records stay inside the window and the tip is the highest of them.
     */
    method FindAncestor(remote: Remote, fromNumber: nat) returns (r: Outcome)
      requires Valid()
      ensures r == Walk(Headers(), remote, fromNumber, Floor(), 0)
      ensures InsideWindow(depth, recorded) && Highest(recorded) < Floor() + 1 + depth ==>
        r == Walk(History(recorded), remote, fromNumber, Floor(), 0)
    {
      r := WalkRing(remote, fromNumber);
      if InsideWindow(depth, recorded) && Highest(recorded) < Floor() + 1 + depth {
        WalkOverHistory(depth, recorded, remote, fromNumber, Floor(), 0);
      }
    }

    method WalkRing(remote: Remote, fromNumber: nat) returns (r: Outcome)
      requires Valid()
      ensures r == Walk(Headers(), remote, fromNumber, Floor(), 0)
    {
      hide RecordedAll;
      var floor := Floor();
      var chunk: seq<nat>, locals: seq<HeadRef> := [], [];
      var request := 0;
      var n := fromNumber;
      while n > floor
        invariant |chunk| == |locals| < ANCESTOR_CHUNK
        invariant forall i :: 0 <= i < |chunk| ==> chunk[i] in Headers() && Headers()[chunk[i]] == locals[i]
        invariant Walk(Headers(), remote, fromNumber, floor, 0)
               == Resume(Headers(), remote, chunk, n, floor, ANCESTOR_CHUNK * request)
      {
        var local, ok := At(n);
        if ok {
          ResumeGathers(Headers(), remote, chunk, n, floor, ANCESTOR_CHUNK * request);
          chunk, locals := chunk + [n], locals + [local];
        } else {
          ResumeSkips(Headers(), remote, chunk, n, floor, ANCESTOR_CHUNK * request);
        }
        if |chunk| >= ANCESTOR_CHUNK {
          var c := Check(Headers(), remote, n - 1, floor, request, chunk, locals);
          if c.Some? { return c.value; }
          chunk, locals, request := [], [], request + 1;
        }
        n := n - 1;
      }
      if |chunk| > 0 {
        var c := Check(Headers(), remote, n, floor, request, chunk, locals);
        if c.Some? { return c.value; }
      }
      return Deep(floor);
    }
  }
}
