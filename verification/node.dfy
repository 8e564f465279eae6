/**
 The node as an oracle, and what it takes for an act of the dispatch loop to be grounded in its answers.

 Every request has a number, and a world gives the answer to request `q` as a function of `q`: answers may
 differ from one request to the next and any of them may fail. In a `steady` world they agree with one
 canonical chain.
 */
module Nodes {
  import opened Types
  import opened Lifecycle
  import opened Invariant
  import opened Effects
  import opened Blocks
  import opened Tracking
  import opened Chain
  import opened Ancestry
  import opened Journal
  import opened Film

  datatype Receipt = Receipt(blockHash: Hash, blockNumber: nat, failed: bool, legs: seq<Match>)

  datatype Answer<+T> = Served(value: T) | NotFound | Refused

  /** Whether the node still knows a transaction without a receipt. */
  datatype Presence = InPool | Gone | Unclear

  /** What the subscriptions delivered while a scan was busy. */
  datatype Delivery = Notice(matches: seq<Match>) | NewHead(number: nat)

  /** One announced head, and the node while it is handled. `canon` is the head of the chain the node follows. */
  datatype World = World(
    tree: Tree, canon: Hash, head: HeadRef, steady: bool,
    remote: Remote,
    announced: nat -> Option<Block>,
    block: (nat, nat) -> Option<Block>,
    receipt: (nat, Hash) -> Answer<Receipt>,
    presence: (nat, Hash) -> Presence,
    finality: nat -> Option<nat>,
    waiting: nat -> nat,
    delivery: nat -> Delivery)

  ghost predicate BlockOk(w: World, n: nat, b: Block)
    requires WfTree(w.tree)
  {
    b.number == n && b.hash != ZERO_HASH && WellScanned(b) && (w.steady ==> On(w.tree, w.canon, n, b.hash))
  }

  ghost predicate AnnouncedOk(w: World, b: Block) {
    b.number == w.head.number && b.hash == w.head.hash && WellScanned(b)
  }

  /** A steady node's receipts name blocks of its chain, no newer than the announced head. */
  ghost predicate ReceiptOk(w: World, h: Hash, r: Receipt)
    requires WfTree(w.tree)
  {
    && LegsOf(r.legs, h)
    && (w.steady ==> r.blockNumber <= w.head.number && On(w.tree, w.canon, r.blockNumber, r.blockHash))
  }

  ghost predicate DeliveryOk(d: Delivery) {
    d.Notice? && d.matches != [] ==> LegsOf(d.matches, d.matches[0].txHash)
  }

  ghost predicate WorldOk(w: World) {
    && WfTree(w.tree) && w.head.number > 0 && w.head.hash != ZERO_HASH
    && (w.steady ==> On(w.tree, w.canon, w.head.number, w.head.hash) && w.tree(w.head.hash).parent == w.head.parent)
    && (w.steady ==> forall n, hash :: w.remote.header(n) == Got(hash) ==> On(w.tree, w.canon, n, hash))
    && (forall q :: w.announced(q).Some? ==> AnnouncedOk(w, w.announced(q).value))
    && (forall q, n :: w.block(q, n).Some? ==> BlockOk(w, n, w.block(q, n).value))
    && (forall q, h :: w.receipt(q, h).Served? ==> ReceiptOk(w, h, w.receipt(q, h).value))
    && (forall q :: DeliveryOk(w.delivery(q)))
  }

  lemma WorldTree(w: World)
    requires WorldOk(w)
    ensures WfTree(w.tree)
  {
  }

  lemma WorldHead(w: World)
    requires WorldOk(w)
    ensures WfTree(w.tree) && w.head.number > 0 && w.head.hash != ZERO_HASH
    ensures w.steady ==> On(w.tree, w.canon, w.head.number, w.head.hash) && w.tree(w.head.hash).parent == w.head.parent
  {
  }

  lemma WorldAnnounced(w: World, q: nat)
    requires WorldOk(w) && w.announced(q).Some?
    ensures AnnouncedOk(w, w.announced(q).value)
  {
  }

  lemma WorldBlock(w: World, q: nat, n: nat)
    requires WorldOk(w) && w.block(q, n).Some?
    ensures BlockOk(w, n, w.block(q, n).value)
  {
  }

  lemma WorldReceipt(w: World, q: nat, h: Hash)
    requires WorldOk(w) && w.receipt(q, h).Served?
    ensures ReceiptOk(w, h, w.receipt(q, h).value)
  {
  }

  lemma WorldDelivery(w: World, q: nat)
    requires WorldOk(w)
    ensures DeliveryOk(w.delivery(q))
  {
  }

  // ---------------------------------------------------------------- acts and the answers behind them

  /** What a request asked for. */
  datatype Ask = ForHead | ForBlock(number: nat) | ForReceipt(hash: Hash) | ForPresence(hash: Hash) | ForFinality | ForDelivery

  /** All requests so far, in order: request `q` is the `q`-th, and a moment of the loop is a prefix of a later one. */
  type Asked = seq<Ask>

  function ReceiptAsks(hashes: seq<Hash>): (asks: Asked)
    ensures |asks| == |hashes|
  {
    seq(|hashes|, i requires 0 <= i < |hashes| => ForReceipt(hashes[i]))
  }

  function PresenceAsks(hashes: seq<Hash>): (asks: Asked)
    ensures |asks| == |hashes|
  {
    seq(|hashes|, i requires 0 <= i < |hashes| => ForPresence(hashes[i]))
  }

  /** The answer to request `q`, which asked for `ask`, justifies act `a` in state `s`. */
  ghost predicate Source(w: World, q: nat, ask: Ask, s: State, a: Act) {
    match a
    case Processed(b, _) => (ask == ForBlock(b.number) && w.block(q, b.number) == Some(b)) || (ask == ForHead && w.announced(q) == Some(b))
    case Landed(_, _) => false
    case Took(i, _) =>
      match i
      case SeenPending(matches, _) => ask == ForDelivery && w.delivery(q) == Notice(matches)
      case FoundMined(h, block, num, _, failed, _, _, _) =>
        var r := w.receipt(q, h);
        ask == ForReceipt(h) && r.Served? && r.value.blockHash == block && r.value.blockNumber == num && r.value.failed == failed
      case Verified(h, _) =>
        ask == ForReceipt(h) && IsMined(s, h) && w.receipt(q, h).Served? && w.receipt(q, h).value.blockHash == s.txs[h].block
      case Demoted(h, _) =>
        && ask == ForReceipt(h) && IsMined(s, h)
        && (w.receipt(q, h).NotFound? || (w.receipt(q, h).Served? && w.receipt(q, h).value.blockHash != s.txs[h].block))
      case Rechecked(h, still, _) => ask == ForPresence(h) && w.presence(q, h) == if still then InPool else Gone
      case NonceUsed(_, _, _) => false
      case ForkedAt(_, _, _) => false
  }

  /** A tracked inclusion below the floor is neither confirmed nor demoted. */
  ghost predicate Spares(floor: nat, s: State, a: Act) {
    a.Took? && (a.i.Verified? || a.i.Demoted?) && IsMined(s, a.i.hash) ==> s.txs[a.i.hash].blockNum >= floor
  }

  /** The finalized number `fin` was known at `lo`, or answered a request since. */
  ghost predicate Known(w: World, lo: Asked, hi: Asked, fin0: nat, fin: nat) {
    fin == fin0 || exists q :: |lo| <= q < |hi| && hi[q] == ForFinality && w.finality(q) == Some(fin)
  }

  /** What bounds a stretch of the journal: its requests, the finality known before it, the scan floor, its fork. */
  datatype Span = Span(lo: Asked, hi: Asked, fin0: nat, floor: nat, fork: Option<nat>)

  /** Request `q` of the span asked for `ask`. */
  ghost predicate AskedAt(sp: Span, q: nat, ask: Ask) {
    sp.lo <= sp.hi && |sp.lo| <= q < |sp.hi| && sp.hi[q] == ask
  }

  /** Request `q` of the span was answered with block `b`. */
  ghost predicate ServedAt(w: World, sp: Span, q: nat, b: Block) {
    || (AskedAt(sp, q, ForBlock(b.number)) && w.block(q, b.number) == Some(b))
    || (AskedAt(sp, q, ForHead) && w.announced(q) == Some(b))
  }

  /** The act follows from an answer within the span, or is part of its reorg: the fall to the fork, the landing on the head. */
  ghost predicate Sourced(w: World, sp: Span, s: State, a: Act) {
    || (a.Took? && a.i.ForkedAt? && sp.fork == Some(a.i.ancestor))
    || (a.Landed? && sp.fork.Some? && a.number == w.head.number)
    || exists q :: |sp.lo| <= q < |sp.hi| && Source(w, q, sp.hi[q], s, a)
  }

  ghost predicate GroundedAt(cfg: Config, origin: State, w: World, sp: Span, acts: seq<Act>, k: nat)
    requires k < |acts|
  {
    var s := Run(cfg, origin, acts[..k]).s;
    Sourced(w, sp, s, acts[k]) && Spares(sp.floor, s, acts[k]) && Known(w, sp.lo, sp.hi, sp.fin0, FinOf(acts[k]))
  }

  /** `b` continues the journal `a`, and every new act is grounded in the world's answers. */
  ghost predicate Grounded(cfg: Config, origin: State, w: World, sp: Span, a: seq<Act>, b: seq<Act>) {
    && a <= b && sp.lo <= sp.hi
    && forall k :: |a| <= k < |b| ==> GroundedAt(cfg, origin, w, sp, b, k)
  }

  lemma GroundedOne(cfg: Config, origin: State, w: World, sp: Span, acts: seq<Act>, a: Act)
    requires sp.lo <= sp.hi
    requires var s := Run(cfg, origin, acts).s;
             Sourced(w, sp, s, a) && Spares(sp.floor, s, a) && Known(w, sp.lo, sp.hi, sp.fin0, FinOf(a))
    ensures Grounded(cfg, origin, w, sp, acts, acts + [a])
  {
    hide Sourced, Spares, Known, Run;
    assert (acts + [a])[..|acts|] == acts;
  }

  ghost predicate Wider(w: World, sp: Span, sp': Span) {
    && sp'.lo <= sp.lo <= sp.hi <= sp'.hi && sp'.floor <= sp.floor
    && (sp.fork.Some? ==> sp'.fork == sp.fork)
    && Known(w, sp'.lo, sp'.hi, sp'.fin0, sp.fin0)
  }

  lemma SourcedWider(w: World, sp: Span, sp': Span, s: State, a: Act)
    requires Sourced(w, sp, s, a) && Wider(w, sp, sp')
    ensures Sourced(w, sp', s, a)
  {
    hide Source;
    if q :| |sp.lo| <= q < |sp.hi| && Source(w, q, sp.hi[q], s, a) {
      assert sp'.hi[q] == sp.hi[q];
    }
  }

  lemma KnownWider(w: World, sp: Span, sp': Span, fin: nat)
    requires Known(w, sp.lo, sp.hi, sp.fin0, fin) && Wider(w, sp, sp')
    ensures Known(w, sp'.lo, sp'.hi, sp'.fin0, fin)
  {
    if q :| |sp.lo| <= q < |sp.hi| && sp.hi[q] == ForFinality && w.finality(q) == Some(fin) {
      assert sp'.hi[q] == sp.hi[q];
    }
  }

  lemma GroundedWiden(cfg: Config, origin: State, w: World, sp: Span, sp': Span, a: seq<Act>, b: seq<Act>)
    requires Grounded(cfg, origin, w, sp, a, b) && Wider(w, sp, sp')
    ensures Grounded(cfg, origin, w, sp', a, b)
  {
    hide Run, Sourced, Known;
    forall k | |a| <= k < |b| ensures GroundedAt(cfg, origin, w, sp', b, k) {
      assert GroundedAt(cfg, origin, w, sp, b, k);
      SourcedWider(w, sp, sp', Run(cfg, origin, b[..k]).s, b[k]);
      KnownWider(w, sp, sp', FinOf(b[k]));
    }
  }

  lemma GroundedJoin(cfg: Config, origin: State, w: World, sp: Span, a: seq<Act>, b: seq<Act>, c: seq<Act>)
    requires Grounded(cfg, origin, w, sp, a, b) && Grounded(cfg, origin, w, sp, b, c)
    ensures Grounded(cfg, origin, w, sp, a, c)
  {
    hide Run, Sourced, Spares, Known;
    forall k | |a| <= k < |c| ensures GroundedAt(cfg, origin, w, sp, c, k) {
      if k < |b| {
        assert GroundedAt(cfg, origin, w, sp, b, k);
        assert c[..k] == b[..k] && c[k] == b[k];
      }
    }
  }

  /** Two stretches one after the other, both inside a wider one. */
  lemma GroundedThen(cfg: Config, origin: State, w: World, sp1: Span, sp2: Span, sp: Span, a: seq<Act>, b: seq<Act>, c: seq<Act>)
    requires Grounded(cfg, origin, w, sp1, a, b) && Grounded(cfg, origin, w, sp2, b, c)
    requires Wider(w, sp1, sp) && Wider(w, sp2, sp)
    ensures Grounded(cfg, origin, w, sp, a, c)
  {
    hide Grounded, Wider;
    GroundedWiden(cfg, origin, w, sp1, sp, a, b);
    GroundedWiden(cfg, origin, w, sp2, sp, b, c);
    GroundedJoin(cfg, origin, w, sp, a, b, c);
  }

  lemma KnownLater(w: World, lo: Asked, mid: Asked, hi: Asked, fin0: nat, fin1: nat, fin2: nat)
    requires lo <= mid <= hi && Known(w, lo, mid, fin0, fin1) && Known(w, mid, hi, fin1, fin2)
    ensures Known(w, lo, hi, fin0, fin2) && Known(w, lo, hi, fin0, fin1)
  {
    if q :| |lo| <= q < |mid| && mid[q] == ForFinality && w.finality(q) == Some(fin1) {
      assert hi[q] == mid[q];
    }
  }

  // ---------------------------------------------------------------- failed requests

  /** A scan within [`from`, ...] may ask for `n`: it is at most the announced head, or a head delivered since. */
  ghost predicate Wanted(w: World, lo: Asked, hi: Asked, q: nat, n: nat)
    requires q <= |hi|
  {
    n <= w.head.number
    || exists p :: |lo| <= p < q && hi[p] == ForDelivery && w.delivery(p).NewHead? && n <= w.delivery(p).number
  }

  /** The scan from block `from` on stopped at its last request: it asked for a block it wanted and was refused. */
  ghost predicate Faulted(w: World, lo: Asked, hi: Asked, from: nat) {
    && lo < hi
    && var q := |hi| - 1;
       match hi[q]
       case ForHead => w.announced(q).None?
       case ForBlock(n) => n >= from && Wanted(w, lo, hi, q, n) && w.block(q, n).None?
       case _ => false
  }

  lemma FaultedWider(w: World, lo: Asked, hi: Asked, from: nat, lo': Asked, from': nat)
    requires Faulted(w, lo, hi, from) && lo' <= lo && from' <= from
    ensures Faulted(w, lo', hi, from')
  {
  }

  /** The block request just sent failed. */
  lemma BlockFaulted(w: World, lo: Asked, hi: Asked, from: nat, n: nat)
    requires lo < hi && hi[|hi| - 1] == ForBlock(n) && n >= from && w.block(|hi| - 1, n).None?
    requires Wanted(w, lo, hi, |hi| - 1, n)
    ensures Faulted(w, lo, hi, from)
  {
  }

  /** The tip is a block of the node's chain. */
  ghost predicate OnChain(w: World, tip: Option<HeadRef>)
    requires WfTree(w.tree)
  {
    tip.Some? && On(w.tree, w.canon, tip.value.number, tip.value.hash)
  }

  // ---------------------------------------------------------------- one lifecycle pass

  /** One receipt check: the candidate and the block it is tracked in. */
  datatype Check = Check(hash: Hash, tracked: Hash)

  /** The candidates whose block the scan has reached. */
  function ChecksOf(s: State, candidates: seq<Hash>, floor: nat): seq<Check> {
    if candidates == [] then []
    else
      var h := candidates[|candidates| - 1];
      ChecksOf(s, candidates[..|candidates| - 1], floor)
      + if h in s.txs && s.txs[h].state.InBlock? && s.txs[h].blockNum >= floor then [Check(h, s.txs[h].block)] else []
  }

  /**
   What a candidate's receipt leads to: no receipt demotes it, the tracked block confirms it, another block
   demotes it and mines it there, and an unclear answer does nothing.
   */
  ghost predicate Verdict(tip: Option<HeadRef>, c: Check, answer: Answer<Receipt>, head: nat, fin: nat, seg: seq<Act>) {
    match answer
    case NotFound => |seg| == 1 && seg[0].Took? && seg[0].i.Demoted? && seg[0] == Took(Demoted(c.hash, seg[0].i.now), fin)
    case Refused => seg == []
    case Served(r) =>
      if r.blockHash == c.tracked then seg == [Took(Verified(c.hash, head), fin)]
      else
        && |seg| == 2
        && seg[0].Took? && seg[0].i.Demoted? && seg[0] == Took(Demoted(c.hash, seg[0].i.now), fin)
        && seg[1].Took? && seg[1].i.FoundMined?
        && seg[1] == Took(FoundMined(c.hash, r.blockHash, r.blockNumber, [], r.failed, DepthAt(tip, r.blockNumber), fin, seg[1].i.now), fin)
  }

  /** Exactly the mined candidates in blocks the scan has reached are checked, each against the block it is tracked in. */
  lemma {:induction false} ChecksMean(s: State, candidates: seq<Hash>, floor: nat)
    ensures forall c: Check :: c in ChecksOf(s, candidates, floor) <==>
      && c.hash in candidates && c.hash in s.txs && s.txs[c.hash].state == InBlock && s.txs[c.hash].blockNum >= floor
      && c.tracked == s.txs[c.hash].block
    ensures forall i, j :: 0 <= i < j < |ChecksOf(s, candidates, floor)| && NoDup(candidates) ==>
      ChecksOf(s, candidates, floor)[i].hash != ChecksOf(s, candidates, floor)[j].hash
  {
    if candidates == [] {
    } else {
      var init, h := candidates[..|candidates| - 1], candidates[|candidates| - 1];
      assert candidates == init + [h];
      ChecksMean(s, init, floor);
      if NoDup(candidates) {
        forall c | c in ChecksOf(s, init, floor) ensures c.hash != h {
          var i :| 0 <= i < |init| && init[i] == c.hash;
          assert candidates[i] != candidates[|init|];
        }
      }
    }
  }

  /** The native legs a transaction is tracked with. */
  function Kept(s: State, h: Hash): seq<Match> {
    if h in s.txs then Natives(s.txs[h].transfers) else []
  }

  /** A stale pending transaction with a receipt is mined where it says, with its native legs and the receipt's. */
  ghost predicate Promotion(tip: Option<HeadRef>, s: State, h: Hash, answer: Answer<Receipt>, fin: nat, seg: seq<Act>) {
    match answer
    case Served(r) =>
      && |seg| == 1 && seg[0].Took? && seg[0].i.FoundMined?
      && seg[0] == Took(FoundMined(h, r.blockHash, r.blockNumber, Kept(s, h) + r.legs, r.failed, DepthAt(tip, r.blockNumber), fin,
                                   seg[0].i.now), fin)
      && (if tip.Some? && r.blockNumber <= tip.value.number then seg[0].i.confirmations + r.blockNumber == tip.value.number + 1
          else seg[0].i.confirmations == 1)
    case NotFound => seg == []
    case Refused => seg == []
  }

  /** One without a receipt waits on while the node knows it, and is dropped once it is gone. */
  ghost predicate Fate(h: Hash, presence: Presence, fin: nat, seg: seq<Act>) {
    match presence
    case Unclear => seg == []
    case InPool => |seg| == 1 && seg[0].Took? && seg[0].i.Rechecked? && seg[0] == Took(Rechecked(h, true, seg[0].i.now), fin)
    case Gone => |seg| == 1 && seg[0].Took? && seg[0].i.Rechecked? && seg[0] == Took(Rechecked(h, false, seg[0].i.now), fin)
  }

  function Flat(segs: seq<seq<Act>>): seq<Act> {
    if segs == [] then [] else Flat(segs[..|segs| - 1]) + segs[|segs| - 1]
  }

  /** The hashes of a batch of receipt requests from `q` on that the node has no receipt for. */
  ghost function Unmined(w: World, q: nat, hashes: seq<Hash>): seq<Hash> {
    if hashes == [] then []
    else
      var n := |hashes| - 1;
      Unmined(w, q, hashes[..n]) + if w.receipt(q + n, hashes[n]).NotFound? then [hashes[n]] else []
  }

  lemma {:induction false} UnminedMeans(w: World, q: nat, hashes: seq<Hash>)
    ensures forall h :: h in Unmined(w, q, hashes) <==> exists i :: 0 <= i < |hashes| && hashes[i] == h && w.receipt(q + i, h).NotFound?
  {
    if hashes == [] {
    } else {
      var n := |hashes| - 1;
      UnminedMeans(w, q, hashes[..n]);
      forall h ensures h in Unmined(w, q, hashes) <==> exists i :: 0 <= i < |hashes| && hashes[i] == h && w.receipt(q + i, h).NotFound? {
        if h in Unmined(w, q, hashes[..n]) {
          var i :| 0 <= i < n && hashes[..n][i] == h && w.receipt(q + i, h).NotFound?;
          assert hashes[i] == h;
        }
        if i :| 0 <= i < n && hashes[i] == h && w.receipt(q + i, h).NotFound? { assert hashes[..n][i] == h; }
      }
    }
  }

  lemma {:induction false} UnlistedMeans(restored: seq<Hash>, stale: seq<Hash>)
    ensures forall h :: h in Unlisted(restored, stale) <==> h in restored && h !in stale
  {
    if restored == [] {
    } else {
      UnlistedMeans(restored[..|restored| - 1], stale);
      assert restored == restored[..|restored| - 1] + [restored[|restored| - 1]];
    }
  }

  /** The restored transactions not already among the stale ones. */
  function Unlisted(restored: seq<Hash>, stale: seq<Hash>): seq<Hash> {
    if restored == [] then []
    else
      var h := restored[|restored| - 1];
      Unlisted(restored[..|restored| - 1], stale) + if h in stale then [] else [h]
  }
}
