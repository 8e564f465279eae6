/**
 How the dispatch loop treats one announced head: the classification, and each treatment as a relation between
 the pictures of the loop around it and the node's answers in between.
 */
module Heads {
  import opened Types
  import opened Lifecycle
  import opened Invariant
  import opened Effects
  import opened Blocks
  import opened Chain
  import opened Ancestry
  import opened Books
  import opened Journal
  import opened Film
  import opened Nodes
  import opened Passes

  /** The loop between two steps: the tracked state, the ring, the scan, the journal and the requests sent. */
  datatype Shot = Shot(
    s: State, buf: Headers, depth: nat, tip: Option<HeadRef>, last: nat, fin: nat, restored: seq<Hash>,
    book: Book, acts: seq<Act>, asked: Asked)

  /** The scan and the ring agree: nothing was interrupted. */
  ghost predicate LevelAt(tip: Option<HeadRef>, last: nat) {
    if tip.Some? then last == tip.value.number else last == 0
  }

  // ---------------------------------------------------------------- the treatments

  /** How a head relates to the tip. */
  function KindOf(tip: Option<HeadRef>, buf: Headers, head: HeadRef): HeadKind {
    if tip.None? || (head.parent == tip.value.hash && head.number == tip.value.number + 1) then Extend
    else if head.number > tip.value.number + 1 then Gap
    else if head.number <= tip.value.number && head.number in buf && buf[head.number].hash == head.hash then Stale
    else Reorg
  }

  /** A head that extends the tip still hides a gap when the scan is behind it. */
  function TreatedAs(tip: Option<HeadRef>, buf: Headers, last: nat, head: HeadRef): HeadKind {
    var kind := KindOf(tip, buf, head);
    if kind.Extend? && last > 0 && head.number > last + 1 then Gap else kind
  }

  /** The ancestor walk of a reorg, from the lower of tip and head down to the ring's floor. */
  ghost function WalkOf(w: World, b: Shot): Outcome
    requires b.tip.Some?
  {
    var from := if b.tip.value.number < w.head.number then b.tip.value.number else w.head.number;
    Walk(b.buf, w.remote, from, FloorAt(b.tip, b.depth), 0)
  }

  function ForkOf(o: Outcome): Option<nat> {
    match o
    case Found(n) => Some(n)
    case Deep(floor) => Some(floor)
    case Failure(_) => None
  }

  /**
   In all cases. A head extends the chain when there is no tip yet or it is the tip's child, and the scan is not behind
   it; it leaves a gap when it is further up, or the scan is behind; it is stale when its very header is buffered at or
   below the tip; anything else is a reorg.
   */
  lemma TreatmentMeans(tip: Option<HeadRef>, buf: Headers, last: nat, head: HeadRef)
    ensures var kind := TreatedAs(tip, buf, last, head);
            var follows := tip.None? || (head.parent == tip.value.hash && head.number == tip.value.number + 1);
            var behind := last > 0 && head.number > last + 1;
            var above := tip.Some? && head.number > tip.value.number + 1;
            var known := tip.Some? && head.number <= tip.value.number && head.number in buf && buf[head.number].hash == head.hash;
            && (kind.Extend? <==> follows && !behind)
            && (kind.Gap? <==> above || (follows && behind))
            && (kind.Stale? <==> known)
            && (kind.Reorg? <==> !follows && !above && !known)
  {
  }

  /**
   A reorg's fork is the greatest number from the lower of tip and head down to above the ring's floor at which the
   node has the buffered header, or the floor if it has none of them; there is none when an answer failed.
   */
  lemma ForkMeans(w: World, b: Shot)
    requires b.tip.Some? && b.depth > 0
    ensures var fork, floor := ForkOf(WalkOf(w, b)), FloorAt(b.tip, b.depth);
            && (fork.None? <==> WalkOf(w, b).Failure?)
            && (WalkOf(w, b).Deep? ==> fork == Some(floor))
            && (WalkOf(w, b).Found? ==>
                 && floor < fork.value <= b.tip.value.number && fork.value <= w.head.number
                 && fork.value in b.buf && w.remote.header(fork.value) == Got(b.buf[fork.value].hash))
            && (fork.Some? ==> forall n :: fork.value < n && floor < n <= b.tip.value.number && n <= w.head.number && n in b.buf ==>
                 w.remote.header(n) != Got(b.buf[n].hash))
  {
    hide Walk;
    var from := if b.tip.value.number < w.head.number then b.tip.value.number else w.head.number;
    WalkFindsGreatest(b.buf, w.remote, from, FloorAt(b.tip, b.depth), 0);
    if ForkOf(WalkOf(w, b)).Some? {
      forall n | ForkOf(WalkOf(w, b)).value < n && FloorAt(b.tip, b.depth) < n <= from && n in b.buf
        ensures w.remote.header(n) != Got(b.buf[n].hash)
      {
        assert !Agrees(b.buf, w.remote, n);
      }
    }
  }

  /** The announced block, fetched by its hash, was processed on top of the tip; or the request failed. */
  ghost predicate Extended(w: World, b: Shot, m: Shot, advanced: bool) {
    && m.asked == b.asked + [ForHead] && m.fin == b.fin && m.restored == b.restored
    && (advanced <==> w.announced(|b.asked|).Some?)
    && (if advanced then
          && m.last == w.head.number && m.tip.Some? && m.tip.value.number == w.head.number && m.tip.value.hash == w.head.hash
          && |m.acts| == |b.acts| + 1 && m.acts[|b.acts|].Processed?
          && m.acts == b.acts + [Processed(w.announced(|b.asked|).value, m.acts[|b.acts|].m)]
          && m.book.log == b.book.log + [w.head.number]
        else
          m == b.(book := m.book, asked := m.asked) && m.book.log == b.book.log)
  }

  /** A head above the announced one was delivered meanwhile. */
  ghost predicate Heard(w: World, lo: Asked, hi: Asked, number: nat) {
    exists q :: |lo| <= q < |hi| && hi[q] == ForDelivery && w.delivery(q) == NewHead(number)
  }

  /** Where one delivery leaves the loop, all blocks being served: its next request, and the newest head. */
  function LiveOne(w: World, q: nat, newest: nat): (nat, nat) {
    match w.delivery(q)
    case Notice(_) => (q + 1, newest)
    case NewHead(n) => if n > newest then (q + 1 + (n - newest), n) else (q + 1, newest)
  }

  /** No head delivered since is above `newest`. */
  ghost predicate NoHeadMissed(w: World, lo: Asked, hi: Asked, newest: nat) {
    && lo <= hi
    && forall q :: |lo| <= q < |hi| && hi[q] == ForDelivery && w.delivery(q).NewHead? ==> w.delivery(q).number <= newest
  }

  lemma NoneYet(w: World, asked: Asked, newest: nat)
    ensures NoHeadMissed(w, asked, asked, newest)
  {
  }

  lemma NoneMissed(w: World, lo: Asked, mid: Asked, hi: Asked, newest: nat, newest': nat)
    requires NoHeadMissed(w, lo, mid, newest) && NoHeadMissed(w, mid, hi, newest') && newest <= newest'
    ensures NoHeadMissed(w, lo, hi, newest')
  {
    forall q | |lo| <= q < |hi| && hi[q] == ForDelivery && w.delivery(q).NewHead? ensures w.delivery(q).number <= newest' {
      if q < |mid| { assert mid[q] == hi[q]; }
    }
  }

  /** Only blocks were asked for in between. */
  ghost predicate OnlyBlocksAsked(lo: Asked, hi: Asked) {
    lo <= hi && forall q :: |lo| <= q < |hi| ==> hi[q].ForBlock?
  }

  /** What a delivery leads to: a notice is taken, and the blocks up to a newer head are processed. */
  ghost function LiveDeeds(w: World, q: nat, newest: nat): seq<Deed> {
    match w.delivery(q)
    case Notice(matches) => [OfNotice(matches)]
    case NewHead(n) => if n > newest then BlockDeeds(newest + 1, n + 1) else []
  }

  /**
   A notice costs one request and is taken; a head above the newest costs one more per block up to it, which are
   processed in order; a stale head costs one and leads to nothing.
   */
  lemma DeliveryMeans(w: World, q: nat, newest: nat)
    ensures w.delivery(q).Notice? ==>
      LiveOne(w, q, newest) == (q + 1, newest) && LiveDeeds(w, q, newest) == [OfNotice(w.delivery(q).matches)]
    ensures w.delivery(q).NewHead? && w.delivery(q).number > newest ==>
      var n := w.delivery(q).number;
      && LiveOne(w, q, newest) == (q + 1 + n - newest, n) && |LiveDeeds(w, q, newest)| == n - newest
      && forall i :: 0 <= i < n - newest ==> LiveDeeds(w, q, newest)[i] == OfBlock(newest + 1 + i)
    ensures w.delivery(q).NewHead? && w.delivery(q).number <= newest ==>
      LiveOne(w, q, newest) == (q + 1, newest) && LiveDeeds(w, q, newest) == []
  {
  }

  /** Where `k` deliveries leave it. */
  function Drained(w: World, q: nat, k: nat, newest: nat): (nat, nat)
    decreases k
  {
    if k == 0 then (q, newest)
    else
      var (q', newest') := LiveOne(w, q, newest);
      Drained(w, q', k - 1, newest')
  }

  /** What they lead to, in order. */
  ghost function DrainedDeeds(w: World, q: nat, k: nat, newest: nat): seq<Deed>
    decreases k
  {
    if k == 0 then []
    else
      var (q', newest') := LiveOne(w, q, newest);
      LiveDeeds(w, q, newest) + DrainedDeeds(w, q', k - 1, newest')
  }

  lemma DeedsStep(w: World, q: nat, k: nat, newest: nat, deeds: seq<Deed>)
    ensures k == 0 ==> deeds + DrainedDeeds(w, q, k, newest) == deeds
    ensures k > 0 ==>
      deeds + DrainedDeeds(w, q, k, newest)
      == deeds + LiveDeeds(w, q, newest) + DrainedDeeds(w, LiveOne(w, q, newest).0, k - 1, LiveOne(w, q, newest).1)
  {
    hide LiveDeeds;
  }

  /** Nothing but blocks and notices. */
  ghost predicate OnlyLive(a: seq<Act>, b: seq<Act>) {
    a <= b && forall k :: |a| <= k < |b| ==> DeedOf(b[k]).OfBlock? || DeedOf(b[k]).OfNotice?
  }

  lemma OnlyLiveThen(a: seq<Act>, b: seq<Act>, c: seq<Act>)
    requires OnlyLive(a, b) && OnlyLive(b, c)
    ensures OnlyLive(a, c)
  {
  }

  lemma BlocksAreLive(a: seq<Act>, b: seq<Act>, lo: nat, hi: nat)
    requires Did(a, b, BlockDeeds(lo, hi))
    ensures OnlyLive(a, b)
  {
    forall k | |a| <= k < |b| ensures DeedOf(b[k]).OfBlock? {
      assert b[|a|..][k - |a|] == b[k];
      assert DeedsOf(b[|a|..])[k - |a|] == DeedOf(b[k]);
    }
  }

  lemma DrainedStep(w: World, q: nat, k: nat, newest: nat)
    ensures Drained(w, q, 0, newest) == (q, newest)
    ensures k > 0 ==> Drained(w, q, k, newest) == Drained(w, LiveOne(w, q, newest).0, k - 1, LiveOne(w, q, newest).1)
  {
  }

  /** A newer head heard of earlier, or in between. */
  lemma StillHeard(w: World, highest: nat, reached: nat, newest: nat, q0: Asked, q1: Asked, q2: Asked)
    requires q0 <= q1 <= q2 && highest <= reached <= newest
    requires reached == highest || Heard(w, q0, q2, reached) || Heard(w, q0, q1, reached)
    requires newest == reached || Heard(w, q1, q2, newest)
    ensures newest == highest || Heard(w, q0, q2, newest)
  {
  }

  /** The head just delivered. */
  lemma HeardNow(w: World, lo: Asked, hi: Asked, number: nat)
    requires lo + [ForDelivery] <= hi && w.delivery(|lo|) == NewHead(number)
    ensures Heard(w, lo, hi, number)
  {
    assert hi[|lo|] == ForDelivery;
  }

  /** What has been heard of may be asked for, and whatever is below the announced head. */
  lemma HeardWanted(w: World, lo: Asked, hi: Asked, q: nat, newest: nat, n: nat)
    requires |lo| <= q <= |hi| && n <= newest && (newest <= w.head.number || Heard(w, lo, hi[..q], newest))
    ensures Wanted(w, lo, hi, q, n)
  {
    if newest > w.head.number {
      var p :| |lo| <= p < q && hi[..q][p] == ForDelivery && w.delivery(p) == NewHead(newest);
      assert hi[p] == ForDelivery;
    }
  }

  /** One block of a backlog: the loop before it, after the live traffic, and after the block's lifecycle pass. */
  datatype Leg = Leg(before: Shot, drained: Shot, m: Moment, after: Shot, log: PassLog)

  /**
   Block `n` was fetched, then everything the subscriptions had delivered was handled in order, then the block was
   processed and the lifecycles updated at the newest head, sparing what is not rescanned yet. `ok` unless an
   answer to the lifecycle pass was unclear.
   */
  ghost predicate LegRun(cfg: Config, origin: State, w: World, n: nat, leg: Leg, ok: bool) {
    var q, b, d, a := |leg.before.asked|, leg.before, leg.drained, leg.after;
    && b.tip.Some? && d.tip.Some? && w.block(q, n).Some?
    && b.asked + [ForBlock(n)] <= d.asked <= a.asked
    && (|d.asked|, d.tip.value.number) == Drained(w, q + 1, w.waiting(q + 1), b.tip.value.number)
    && Did(b.acts, d.acts, DrainedDeeds(w, q + 1, w.waiting(q + 1), b.tip.value.number))
    && d.book == b.book.EnteredUpward(b.tip.value.number + 1, d.tip.value.number + 1)
    && a.tip == d.tip && a.book == d.book.Entered(n) && a.restored == (if ok then [] else d.restored)
    && PassOf(cfg, origin, w, d.tip, d.restored, d.tip.value.number, n, a.fin, |d.asked + Refreshing(cfg)|,
              d.acts + [Processed(w.block(q, n).value, leg.m)], a.acts, leg.log, ok)
  }

  /** The blocks below `to`, newest first, each begun where the one before it ended. */
  ghost predicate BackedDown(cfg: Config, origin: State, w: World, legs: seq<Leg>, first: Shot, last: Shot, to: nat) {
    if legs == [] then last == first
    else
      var leg := legs[|legs| - 1];
      && |legs| <= to && LegRun(cfg, origin, w, to - |legs|, leg, true) && leg.after == last
      && BackedDown(cfg, origin, w, legs[..|legs| - 1], first, leg.before, to)
  }

  lemma LegIsRun(cfg: Config, origin: State, w: World, n: nat, leg: Leg, d: Option<Block>, ok: bool)
    requires var b, d', a := leg.before, leg.drained, leg.after;
             && b.tip.Some? && d'.tip.Some? && d == w.block(|b.asked|, n) && d.Some?
             && b.asked + [ForBlock(n)] <= d'.asked <= a.asked
             && (|d'.asked|, d'.tip.value.number) == Drained(w, |b.asked| + 1, w.waiting(|b.asked| + 1), b.tip.value.number)
             && Did(b.acts, d'.acts, DrainedDeeds(w, |b.asked| + 1, w.waiting(|b.asked| + 1), b.tip.value.number))
             && d'.book == b.book.EnteredUpward(b.tip.value.number + 1, d'.tip.value.number + 1)
             && a.tip == d'.tip && a.book == d'.book.Entered(n) && a.restored == (if ok then [] else d'.restored)
             && PassOf(cfg, origin, w, d'.tip, d'.restored, d'.tip.value.number, n, a.fin, |d'.asked + Refreshing(cfg)|,
                       d'.acts + [Processed(d.value, leg.m)], a.acts, leg.log, ok)
    ensures LegRun(cfg, origin, w, n, leg, ok)
  {
    hide PassOf, Drained, DrainedDeeds, Refreshing, Did;
  }

  /** A leg that stopped: the last block asked for was refused, or an answer to its pass was unclear. */
  ghost predicate LegStopped(cfg: Config, origin: State, w: World, n: nat, leg: Leg) {
    || (Faulted(w, leg.before.asked, leg.after.asked, n) && OnlyLive(leg.before.acts, leg.after.acts))
    || LegRun(cfg, origin, w, n, leg, false)
  }

  lemma NotBacked(cfg: Config, origin: State, w: World, b: Shot, to: nat)
    ensures BackedDown(cfg, origin, w, [], b, b, to)
  {
  }

  lemma BackedSnoc(cfg: Config, origin: State, w: World, legs: seq<Leg>, first: Shot, leg: Leg, to: nat)
    requires BackedDown(cfg, origin, w, legs, first, leg.before, to)
    requires |legs| < to && LegRun(cfg, origin, w, to - |legs| - 1, leg, true)
    ensures BackedDown(cfg, origin, w, legs + [leg], first, leg.after, to)
  {
    hide LegRun;
    assert (legs + [leg])[..|legs|] == legs;
  }

  /** A catch-up: the loop after the announced block, the backlog below it, and the leg it stopped at, if it did. */
  datatype Trail = Trail(begun: Shot, legs: seq<Leg>, broken: Leg)

  /** The announced block was fetched by its hash and processed first. */
  ghost predicate HeadFirst(w: World, asked: Asked, acts: seq<Act>, begun: Shot) {
    && begun.asked == asked + [ForHead] && w.announced(|asked|).Some?
    && |begun.acts| == |acts| + 1 && begun.acts[|acts|].Processed?
    && begun.acts == acts + [Processed(w.announced(|asked|).value, begun.acts[|acts|].m)]
  }

  lemma HeadWasFirst(w: World, asked: Asked, acts: seq<Act>, m: Moment, begun: Shot)
    requires begun.asked == asked + [ForHead] && w.announced(|asked|).Some?
    requires begun.acts == acts + [Processed(w.announced(|asked|).value, m)]
    ensures HeadFirst(w, asked, acts, begun)
  {
  }

  /** The announced head first, then the whole backlog down to the last processed number. */
  ghost predicate Trailed(cfg: Config, origin: State, w: World, asked: Asked, acts: seq<Act>, last: nat, m: Shot, t: Trail) {
    && HeadFirst(w, asked, acts, t.begun)
    && last < w.head.number && |t.legs| == w.head.number - last - 1
    && BackedDown(cfg, origin, w, t.legs, t.begun, m.(last := last), w.head.number)
  }

  /** It stopped where the announced block was refused, or at a leg of the backlog. */
  ghost predicate Stopped(cfg: Config, origin: State, w: World, asked: Asked, acts: seq<Act>, from: nat, m: Shot, t: Trail) {
    || (m.asked == asked + [ForHead] && w.announced(|asked|).None? && m.acts == acts)
    || (&& HeadFirst(w, asked, acts, t.begun) && StoppedIn(cfg, origin, w, from, m, t))
  }

  ghost predicate StoppedIn(cfg: Config, origin: State, w: World, from: nat, m: Shot, t: Trail) {
    && |t.legs| + from < w.head.number
    && BackedDown(cfg, origin, w, t.legs, t.begun, t.broken.before, w.head.number)
    && LegStopped(cfg, origin, w, w.head.number - |t.legs| - 1, t.broken) && t.broken.after == m
  }

  lemma TrailDone(cfg: Config, origin: State, w: World, asked: Asked, acts: seq<Act>, last: nat, m: Shot, t: Trail)
    requires HeadFirst(w, asked, acts, t.begun)
    requires last < w.head.number && |t.legs| == w.head.number - last - 1
    requires BackedDown(cfg, origin, w, t.legs, t.begun, m, w.head.number) && m.last == last
    ensures forall highest :: Trailed(cfg, origin, w, asked, acts, last, m.(last := highest), t)
  {
    hide BackedDown, HeadFirst;
    forall highest ensures Trailed(cfg, origin, w, asked, acts, last, m.(last := highest), t) {
      assert m.(last := highest).(last := last) == m;
    }
  }

  /**
   Every number past the last processed one was processed exactly once, up to the announced head or a newer one
   delivered meanwhile, with the live traffic and a lifecycle pass in between; or the catch-up stopped at a refused
   block or an unclear answer, and the scan position did not move.
   */
  ghost predicate GapClosed(cfg: Config, origin: State, w: World, b: Shot, m: Shot, t: Trail, advanced: bool) {
    if advanced then
      && m.tip.Some? && m.tip.value.number == m.last >= w.head.number
      && (if m.last == w.head.number then m.tip.value.hash == w.head.hash else Heard(w, b.asked, m.asked, m.last))
      && b.book.log <= m.book.log && ExactlyOnce(m.book.log[|b.book.log|..], b.last + 1, m.last)
      && Trailed(cfg, origin, w, b.asked, b.acts, b.last, m, t)
    else
      m.last == b.last && Stopped(cfg, origin, w, b.asked, b.acts, b.last + 1, m, t)
  }

  /** The journal's next act is the reorg at `fork`. */
  ghost predicate FellTo(b: Shot, acts: seq<Act>, fork: nat) {
    && |b.acts| < |acts| && acts[|b.acts|].Took? && acts[|b.acts|].i.ForkedAt?
    && acts[|b.acts|].i.ancestor == fork && acts[|b.acts|].fin == b.fin
    && Enumerates(acts[|b.acts|].i.order, b.s.txs.Keys)
  }

  /**
   Everything above the fork was demoted, and exactly the numbers from there to the head were replayed before the
   tip landed on it; or a replay request failed, and exactly the numbers before that one were.
   */
  ghost predicate Replayed(w: World, b: Shot, m: Shot, fork: nat, advanced: bool) {
    && FellTo(b, m.acts, fork)
    && (if advanced then
          && m.last == w.head.number && m.book == b.book.Forked(fork).EnteredUpward(fork + 1, w.head.number + 1)
          && Did(b.acts, m.acts, [OfFork(fork)] + BlockDeeds(fork + 1, w.head.number + 1) + [OfLanding(w.head.number)])
        else
          && m.last == fork && RefusedAt(w, b.asked, m.asked, fork + 1)
          && Did(b.acts, m.acts, [OfFork(fork)] + BlockDeeds(fork + 1, m.asked[|m.asked| - 1].number)))
  }

  /** The last request was for a block from `from` up to the announced head, and was refused. */
  ghost predicate RefusedAt(w: World, lo: Asked, hi: Asked, from: nat) {
    && lo < hi && hi[|hi| - 1].ForBlock? && from <= hi[|hi| - 1].number <= w.head.number
    && w.block(|hi| - 1, hi[|hi| - 1].number).None?
  }

  ghost predicate ReorgHandled(w: World, b: Shot, m: Shot, deep: bool, advanced: bool)
    requires b.tip.Some?
  {
    match WalkOf(w, b)
    case Failure(_) => !deep && !advanced && m == b
    case Found(fork) => !deep && Replayed(w, b, m, fork, advanced) && (advanced ==> m.tip.Some? && m.tip.value.number == m.last)
    case Deep(floor) => deep && Replayed(w, b, m, floor, advanced)
  }

  /** What the acts of a treatment may rest on: a gap spares what the scan has passed, only a reorg forks. */
  ghost function GroundOf(w: World, b: Shot, m: Shot, kind: HeadKind): Span {
    Span(b.asked, m.asked, b.fin, if kind.Gap? then b.last + 1 else 0,
         if kind.Reorg? && b.tip.Some? then ForkOf(WalkOf(w, b)) else None)
  }

  /** One head's effect on the chain view. */
  ghost predicate Treated(cfg: Config, origin: State, w: World, b: Shot, m: Shot, kind: HeadKind, deep: bool, advanced: bool, t: Trail) {
    && kind == TreatedAs(b.tip, b.buf, b.last, w.head)
    && Grounded(cfg, origin, w, GroundOf(w, b, m, kind), b.acts, m.acts) && Known(w, b.asked, m.asked, b.fin, m.fin)
    && m.depth == b.depth && (b.tip.Some? ==> m.tip.Some?)
    && (!kind.Reorg? ==> !deep)
    && match kind
       case Stale => advanced && m == b
       case Extend => Extended(w, b, m, advanced)
       case Gap => GapClosed(cfg, origin, w, b, m, t, advanced)
       case Reorg => b.tip.Some? && ReorgHandled(w, b, m, deep, advanced)
  }

  /** In tag mode a pass asks for the finalized number first. */
  function Refreshing(cfg: Config): seq<Ask> {
    if cfg.tagMode then [ForFinality] else []
  }

  /** The finalized number after that. */
  function Refreshed(cfg: Config, w: World, q: nat, fin: nat): nat {
    if !cfg.tagMode then 0 else if w.finality(q).Some? then w.finality(q).value else fin
  }

  /** Outside tag mode there is no finalized number; in tag mode it is the node's answer, or the last one known. */
  lemma RefreshedMeans(cfg: Config, w: World, q: nat, fin: nat)
    ensures !cfg.tagMode ==> Refreshed(cfg, w, q, fin) == 0 && Refreshing(cfg) == []
    ensures cfg.tagMode ==> Refreshing(cfg) == [ForFinality]
    ensures cfg.tagMode && w.finality(q).Some? ==> Refreshed(cfg, w, q, fin) == w.finality(q).value
    ensures cfg.tagMode && w.finality(q).None? ==> Refreshed(cfg, w, q, fin) == fin
  {
  }

  /** The lifecycle pass that follows, at the head reached: it leaves the chain view alone. */
  ghost predicate FollowedUp(cfg: Config, origin: State, w: World, m: Shot, a: Shot, log: PassLog, ok: bool) {
    && a == m.(s := a.s, fin := a.fin, restored := a.restored, acts := a.acts, asked := a.asked)
    && a.fin == Refreshed(cfg, w, |m.asked|, m.fin)
    && a.restored == (if ok then [] else m.restored)
    && PassOf(cfg, origin, w, m.tip, m.restored, m.last, 0, a.fin, |m.asked + Refreshing(cfg)|, m.acts, a.acts, log, ok)
    && Grounded(cfg, origin, w, Span(m.asked, a.asked, m.fin, 0, None), m.acts, a.acts) && Known(w, m.asked, a.asked, m.fin, a.fin)
  }

  // ---------------------------------------------------------------- reports

  /** What the subscriptions deliver to the loop: a mempool notice, or a head and the node while it is handled. */
  datatype DispatchStep = Mempool(matches: seq<Match>) | Announced(w: World)

  /** The loop before and after one step; for a head also after its treatment, and how it went. */
  datatype Report =
    | NoticeReport(before: Shot, after: Shot, now: Time)
    | HeadReport(before: Shot, mid: Shot, after: Shot, kind: HeadKind, deep: bool, advanced: bool, trail: Trail, log: PassLog, ok: bool)

  ghost predicate StepOk(t: Tree, step: DispatchStep) {
    match step
    case Mempool(matches) => matches != [] ==> LegsOf(matches, matches[0].txHash)
    case Announced(w) => w.tree == t && WorldOk(w)
  }

  ghost predicate HeadStep(cfg: Config, origin: State, w: World, r: Report)
    requires r.HeadReport?
  {
    && Treated(cfg, origin, w, r.before, r.mid, r.kind, r.deep, r.advanced, r.trail)
    && (if r.advanced && !r.kind.Stale? then FollowedUp(cfg, origin, w, r.mid, r.after, r.log, r.ok)
        else r.after == r.mid && r.ok == r.advanced)
  }

  ghost predicate NoticeStep(matches: seq<Match>, r: Report)
    requires r.NoticeReport?
  {
    && r.after == r.before.(s := r.after.s, acts := r.after.acts)
    && r.after.acts == r.before.acts + [Took(SeenPending(matches, r.now), r.before.fin)]
  }

  /** A picture's tracked state, ring, tip, depths and scan are those of its journal. */
  ghost predicate Shown(cfg: Config, origin: State, boot: Boot, b: Shot) {
    && b.s == Run(cfg, origin, b.acts).s
    && FilmOf(boot, b.depth, b.acts, boot.headers + Refs(b.acts), b.tip, b.book)
    && b.buf == RecordedAll(b.depth, boot.headers + Refs(b.acts))
  }

  ghost predicate Explained(cfg: Config, origin: State, boot: Boot, step: DispatchStep, r: Report) {
    && Shown(cfg, origin, boot, r.before) && Shown(cfg, origin, boot, r.after)
    && match step
       case Mempool(matches) => r.NoticeReport? && NoticeStep(matches, r)
       case Announced(w) => r.HeadReport? && Shown(cfg, origin, boot, r.mid) && HeadStep(cfg, origin, w, r)
  }

  /** Each report starts where the one before it ended. */
  ghost predicate Linked(reports: seq<Report>, first: Shot, last: Shot) {
    if reports == [] then last == first
    else reports[|reports| - 1].after == last && Linked(reports[..|reports| - 1], first, reports[|reports| - 1].before)
  }

  lemma LinkedSnoc(reports: seq<Report>, r: Report, first: Shot)
    requires Linked(reports, first, r.before)
    ensures Linked(reports + [r], first, r.after)
  {
    assert (reports + [r])[..|reports|] == reports;
  }

  /** An advanced head on a steady node, not a deep reorg, and a gap only onto a chain that contains the tip. */
  ghost predicate Clean(step: DispatchStep, r: Report) {
    step.Announced? && r.HeadReport? && WfTree(step.w.tree) ==>
      r.advanced && !r.deep && step.w.steady && (r.kind.Gap? ==> OnChain(step.w, r.before.tip))
  }

  /** The scan never fell back to block 0, and a reorg was entered only with the scan level with the tip. */
  ghost predicate Guarded(r: Report) {
    r.HeadReport? ==>
      && (r.before.last > 0 || r.before.tip.None?)
      && (r.kind.Reorg? ==> LevelAt(r.before.tip, r.before.last))
  }

  ghost predicate AllExplained(cfg: Config, origin: State, boot: Boot, steps: seq<DispatchStep>, reports: seq<Report>) {
    |reports| == |steps| && forall i :: 0 <= i < |steps| ==> Explained(cfg, origin, boot, steps[i], reports[i])
  }

  ghost predicate AllClean(steps: seq<DispatchStep>, reports: seq<Report>)
    requires |reports| == |steps|
  {
    forall i :: 0 <= i < |steps| ==> Clean(steps[i], reports[i])
  }

  ghost predicate AllGuarded(reports: seq<Report>) {
    forall i :: 0 <= i < |reports| ==> Guarded(reports[i])
  }

  // ---------------------------------------------------------------- what a head may confirm

  lemma WitnessedWider(w: World, sp: Span, sp': Span, q: nat, tip: Option<HeadRef>, a: Act, e: Event)
    requires Witnessed(w, sp, q, tip, a, e) && sp'.lo <= sp.lo && sp.hi <= sp'.hi && sp'.floor <= sp.floor
    ensures Witnessed(w, sp', q, tip, a, e)
  {
    assert sp'.hi[q] == sp.hi[q];
  }

  lemma EmittedByPrefix(cfg: Config, origin: State, acts: seq<Act>, acts': seq<Act>, k: nat, e: Event)
    requires k < |acts| && acts <= acts' && EmittedBy(cfg, origin, acts, k, e)
    ensures EmittedBy(cfg, origin, acts', k, e)
  {
    hide Run, Perform;
    assert acts[..k] == acts'[..k];
  }

  lemma RequestsInOrder(cfg: Config, origin: State, w: World, r: Report)
    requires r.HeadReport? && HeadStep(cfg, origin, w, r)
    ensures r.before.asked <= r.mid.asked <= r.after.asked && r.before.acts <= r.mid.acts <= r.after.acts
    ensures Grounded(cfg, origin, w, GroundOf(w, r.before, r.mid, r.kind), r.before.acts, r.mid.acts)
    ensures Grounded(cfg, origin, w, Span(r.mid.asked, r.after.asked, r.mid.fin, 0, None), r.mid.acts, r.after.acts)
  {
    hide GroundedAt, Run, Walk, PassOf, GapClosed, ReorgHandled, Extended;
  }

  lemma DepthPrefix(depth: nat, boot: Boot, acts: seq<Act>, n: nat)
    requires depth > 0 && DepthTrue(depth, boot, acts) && n <= |acts|
    ensures DepthTrue(depth, boot, acts[..n])
  {
    hide CountsFrom, TipOf;
    forall k | 0 <= k < n ensures CountsFrom(TipOf(depth, boot, acts[..n][..k]), acts[..n][k]) {
      assert acts[..n][..k] == acts[..k];
    }
  }

  /**
   Every confirmed event an announced head leads to has an answer behind it that the node gave while the head
   was handled: the served block it was found in, or a receipt naming the event's block. It never overstates the
   block's depth below the tip the earlier acts left.
   */
  lemma ConfirmedInHead(cfg: Config, origin: State, boot: Boot, w: World, r: Report, j: nat) returns (k: nat, q: nat)
    requires r.HeadReport? && Explained(cfg, origin, boot, Announced(w), r) && Inv(origin) && Lawful(cfg, origin, r.after.acts)
    requires |Run(cfg, origin, r.before.acts).evs| <= j < |Run(cfg, origin, r.after.acts).evs|
    requires Run(cfg, origin, r.after.acts).evs[j].typ == Confirmed
    ensures |r.before.acts| <= k < |r.after.acts| && EmittedBy(cfg, origin, r.after.acts, k, Run(cfg, origin, r.after.acts).evs[j])
    ensures r.after.depth > 0
    ensures Witnessed(w, Span(r.before.asked, r.after.asked, r.before.fin, 0, None), q,
                      TipOf(r.after.depth, boot, r.after.acts[..k]), r.after.acts[k], Run(cfg, origin, r.after.acts).evs[j])
  {
    hide Run, Inv, Lawful, HeadStep, Grounded, EmittedBy, Witnessed, WalkOf, TipOf, RecordedAll, DepthTrue, Refs, ScannedOf, NumbersOf;
    RequestsInOrder(cfg, origin, w, r);
    var a, m, b, depth := r.before.acts, r.mid.acts, r.after.acts, r.after.depth;
    var sp, wide := GroundOf(w, r.before, r.mid, r.kind), Span(r.before.asked, r.after.asked, r.before.fin, 0, None);
    assert b[..|m|] == m;
    LawfulPrefix(cfg, origin, b, |m|);
    DepthPrefix(depth, boot, b, |m|);
    RunGrows(cfg, origin, b, |m|);
    var e := Run(cfg, origin, b).evs[j];
    if j < |Run(cfg, origin, m).evs| {
      k, q := ConfirmedIsWitnessed(cfg, origin, w, sp, depth, boot, a, m, j);
      EmittedByPrefix(cfg, origin, m, b, k, e);
      assert m[..k] == b[..k];
      WitnessedWider(w, sp, wide, q, TipOf(depth, boot, m[..k]), m[k], e);
    } else {
      sp := Span(r.mid.asked, r.after.asked, r.mid.fin, 0, None);
      k, q := ConfirmedIsWitnessed(cfg, origin, w, sp, depth, boot, m, b, j);
      WitnessedWider(w, sp, wide, q, TipOf(depth, boot, b[..k]), b[k], e);
    }
  }
}
