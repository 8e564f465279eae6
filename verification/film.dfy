/**
 What a journal says about the ring, the scan and the depths: the headers recorded, the numbers scanned on the
 current chain, where the scan began, and the tip each block and receipt was counted from.
 */
module Film {
  import opened Types
  import Tombstones
  import opened Lifecycle
  import opened Invariant
  import opened Effects
  import opened Blocks
  import opened Safety
  import Tracking
  import opened Chain
  import opened Books
  import opened Journal

  /** What a loop starts from: the saved scan position, if it resumes one, and the saved headers. */
  datatype Boot = Boot(resumed: Option<nat>, headers: seq<HeadRef>)

  /** A saved state that says nothing is no saved state. */
  predicate BootOk(boot: Boot) {
    (boot.resumed.None? ==> boot.headers == []) && (boot.resumed == Some(0) ==> boot.headers != [])
  }

  /** What a process saves for the next one. */
  datatype Saved = Saved(last: nat, headers: seq<HeadRef>)

  function BootFrom(saved: Option<Saved>): (boot: Boot)
    ensures BootOk(boot)
  {
    if saved.None? || saved == Some(Saved(0, [])) then Boot(None, []) else Boot(Some(saved.value.last), saved.value.headers)
  }

  /** A saved position and headers are taken up as they are; without any the scan starts afresh. */
  lemma BootMeans(saved: Option<Saved>)
    ensures saved.None? || saved == Some(Saved(0, [])) ==> BootFrom(saved) == Boot(None, [])
    ensures saved.Some? ==>
      && BootFrom(saved).headers == saved.value.headers
      && (saved.value != Saved(0, []) ==> BootFrom(saved).resumed == Some(saved.value.last))
  {
  }

  // ---------------------------------------------------------------- headers and numbers

  function RefOf(b: Block): HeadRef { HeadRef(b.number, b.hash, b.parent) }

  /** The headers of the processed blocks, in order. */
  ghost function Refs(acts: seq<Act>): seq<HeadRef> {
    if acts == [] then []
    else Refs(acts[..|acts| - 1]) + if acts[|acts| - 1].Processed? then [RefOf(acts[|acts| - 1].b)] else []
  }

  /** Their numbers. */
  ghost function NumbersOf(acts: seq<Act>): seq<nat> {
    if acts == [] then []
    else NumbersOf(acts[..|acts| - 1]) + if acts[|acts| - 1].Processed? then [acts[|acts| - 1].b.number] else []
  }

  /** The numbers scanned on the current chain: a reorg voids everything above its fork. */
  ghost function ScannedOf(acts: seq<Act>): set<nat> {
    if acts == [] then {}
    else
      var before := ScannedOf(acts[..|acts| - 1]);
      match acts[|acts| - 1]
      case Processed(b, _) => before + {b.number}
      case Took(i, _) => if i.ForkedAt? then set n | n in before && n <= i.ancestor else before
      case Landed(_, _) => before
  }

  ghost predicate StartKnown(boot: Boot, acts: seq<Act>) {
    boot.resumed.Some? || NumbersOf(acts) != []
  }

  /** The first number the scan owes: past the resumed position, or the first block ever processed. */
  ghost function StartOf(boot: Boot, acts: seq<Act>): nat {
    if boot.resumed.Some? then boot.resumed.value + 1
    else if NumbersOf(acts) != [] then NumbersOf(acts)[0]
    else 0
  }

  /** No number from the start up to `last` is missing on the current chain. */
  ghost predicate Complete(boot: Boot, acts: seq<Act>, last: nat) {
    forall n :: StartOf(boot, acts) <= n <= last ==> n in ScannedOf(acts)
  }

  /** Block `n` was processed by act `k`, and no later reorg fell back below it. */
  ghost predicate StandsSince(acts: seq<Act>, k: nat, n: nat) {
    && k < |acts| && acts[k].Processed? && acts[k].b.number == n
    && forall j :: k < j < |acts| && acts[j].Took? && acts[j].i.ForkedAt? ==> n <= acts[j].i.ancestor
  }

  /** Some processing of `n` still stands. */
  ghost predicate Stands(acts: seq<Act>, n: nat) {
    exists k: nat :: StandsSince(acts, k, n)
  }

  /** A number is scanned on the current chain exactly when some processing of it still stands. */
  lemma {:induction false} ScannedMeans(acts: seq<Act>, n: nat)
    ensures n in ScannedOf(acts) <==> Stands(acts, n)
  {
    if acts != [] {
      var init, last := acts[..|acts| - 1], acts[|acts| - 1];
      ScannedMeans(init, n);
      if last.Processed? && last.b.number == n { assert StandsSince(acts, |init|, n); }
      if k: nat :| StandsSince(init, k, n) && !(last.Took? && last.i.ForkedAt? && last.i.ancestor < n) {
        assert StandsSince(acts, k, n);
      }
      if k: nat :| StandsSince(acts, k, n) && k < |init| {
        assert StandsSince(init, k, n) && acts[k] == init[k];
        assert last == acts[|init|];
      }
    }
  }

  /**
   What the scan owes is there: every number past the position a process resumed at, or from the first block it
   ever processed, up to `last`.
   */
  lemma CompleteMeans(boot: Boot, acts: seq<Act>, last: nat)
    ensures boot.resumed.Some? ==>
      (Complete(boot, acts, last) <==> forall n :: boot.resumed.value < n <= last ==> Stands(acts, n))
    ensures boot.resumed.None? && NumbersOf(acts) != [] ==>
      (Complete(boot, acts, last) <==> forall n :: NumbersOf(acts)[0] <= n <= last ==> Stands(acts, n))
  {
    hide Stands, ScannedOf;
    forall n: nat ensures n in ScannedOf(acts) <==> Stands(acts, n) {
      ScannedMeans(acts, n);
    }
  }

  // ---------------------------------------------------------------- what the acts were

  /** An act in outline. */
  datatype Deed = OfBlock(number: nat) | OfNotice(matches: seq<Match>) | OfFork(ancestor: nat) | OfLanding(head: nat) | OfCheck

  function DeedOf(a: Act): Deed {
    match a
    case Processed(b, _) => OfBlock(b.number)
    case Landed(n, _) => OfLanding(n)
    case Took(i, _) =>
      match i
      case SeenPending(matches, _) => OfNotice(matches)
      case ForkedAt(ancestor, _, _) => OfFork(ancestor)
      case _ => OfCheck
  }

  ghost function DeedsOf(acts: seq<Act>): seq<Deed> {
    seq(|acts|, i requires 0 <= i < |acts| => DeedOf(acts[i]))
  }

  /** The blocks [lo, hi), ascending. */
  ghost function BlockDeeds(lo: nat, hi: nat): seq<Deed> {
    if hi <= lo then [] else seq(hi - lo, i requires 0 <= i < hi - lo => OfBlock(lo + i))
  }

  /** The journal went from `a` to `b` by exactly `deeds`, in order. */
  ghost predicate Did(a: seq<Act>, b: seq<Act>, deeds: seq<Deed>) {
    a <= b && DeedsOf(b[|a|..]) == deeds
  }

  /** The deeds tell what each act was: a processed block, a notice, a fork, or a landing, and of what. */
  lemma DidMeans(a: seq<Act>, b: seq<Act>, deeds: seq<Deed>, k: nat)
    requires Did(a, b, deeds) && k < |deeds|
    ensures |b| == |a| + |deeds|
    ensures var act, deed := b[|a| + k], deeds[k];
            && (deed.OfBlock? <==> act.Processed?) && (deed.OfBlock? ==> act.b.number == deed.number)
            && (deed.OfNotice? <==> act.Took? && act.i.SeenPending?) && (deed.OfNotice? ==> act.i.matches == deed.matches)
            && (deed.OfFork? <==> act.Took? && act.i.ForkedAt?) && (deed.OfFork? ==> act.i.ancestor == deed.ancestor)
            && (deed.OfLanding? <==> act.Landed?) && (deed.OfLanding? ==> act.number == deed.head)
  {
    assert DeedsOf(b[|a|..])[k] == DeedOf(b[|a| + k]);
  }

  lemma DidNothing(a: seq<Act>)
    ensures Did(a, a, [])
  {
  }

  lemma DidOne(a: seq<Act>, act: Act)
    ensures Did(a, a + [act], [DeedOf(act)])
  {
    assert (a + [act])[|a|..] == [act];
  }

  lemma DidBlock(a: seq<Act>, b: Block, m: Moment)
    ensures Did(a, a + [Processed(b, m)], [OfBlock(b.number)])
  {
    DidOne(a, Processed(b, m));
  }

  lemma DidThen(a: seq<Act>, b: seq<Act>, c: seq<Act>, first: seq<Deed>, next: seq<Deed>)
    requires Did(a, b, first) && Did(b, c, next)
    ensures Did(a, c, first + next)
  {
    assert c[|a|..] == b[|a|..] + c[|b|..];
  }

  lemma BlockDeedsGrow(lo: nat, hi: nat)
    requires lo <= hi
    ensures BlockDeeds(lo, hi + 1) == BlockDeeds(lo, hi) + [OfBlock(hi)] && BlockDeeds(lo, lo) == []
  {
  }

  // ---------------------------------------------------------------- the tip and the depths

  /** The tip after a header is recorded. */
  function TipMoved(tip: Option<HeadRef>, h: HeadRef): Option<HeadRef> {
    if tip.None? || h.number >= tip.value.number then Some(h) else tip
  }

  ghost function TipIn(headers: seq<HeadRef>): Option<HeadRef> {
    if headers == [] then None else TipMoved(TipIn(headers[..|headers| - 1]), headers[|headers| - 1])
  }

  ghost function TipOf(depth: nat, boot: Boot, acts: seq<Act>): Option<HeadRef>
    requires depth > 0
  {
    if acts == [] then TipIn(boot.headers)
    else
      var init := acts[..|acts| - 1];
      match acts[|acts| - 1]
      case Processed(b, _) => TipMoved(TipOf(depth, boot, init), RefOf(b))
      case Took(_, _) => TipOf(depth, boot, init)
      case Landed(n, _) => TipAt(RecordedAll(depth, boot.headers + Refs(init)), TipOf(depth, boot, init), n)
  }

  /** The tip moves to a buffered number, and not otherwise. */
  function TipAt(buf: Headers, tip: Option<HeadRef>, n: nat): Option<HeadRef> {
    if n in buf then Some(buf[n]) else tip
  }

  /**
   The tip after one more act: a processed block at or above it takes its place, a landing moves it to the buffered
   header of a number, if there is one, and nothing else moves it.
   */
  lemma TipMeans(depth: nat, boot: Boot, acts: seq<Act>, a: Act)
    requires depth > 0
    ensures var tip, tip' := TipOf(depth, boot, acts), TipOf(depth, boot, acts + [a]);
            && (a.Processed? && (tip.None? || a.b.number >= tip.value.number) ==> tip' == Some(HeadRef(a.b.number, a.b.hash, a.b.parent)))
            && (a.Processed? && tip.Some? && a.b.number < tip.value.number ==> tip' == tip)
            && (a.Took? ==> tip' == tip)
            && (a.Landed? ==>
                 var ring := RecordedAll(depth, boot.headers + Refs(acts));
                 tip' == if a.number in ring then Some(ring[a.number]) else tip)
    ensures Refs(acts + [a]) == if a.Processed? then Refs(acts) + [HeadRef(a.b.number, a.b.hash, a.b.parent)] else Refs(acts)
  {
    ActFilmed(depth, boot, acts, a);
  }

  /** The tip a process starts from is a saved header with the highest number. */
  lemma {:induction false} TipSaved(headers: seq<HeadRef>)
    ensures TipIn(headers).None? <==> headers == []
    ensures headers != [] ==>
      && TipIn(headers).value in headers
      && forall i :: 0 <= i < |headers| ==> headers[i].number <= TipIn(headers).value.number
  {
    if headers != [] {
      var init := headers[..|headers| - 1];
      TipSaved(init);
      assert headers == init + [headers[|headers| - 1]];
    }
  }

  /** A block's depth below the tip, itself included: 1 for the tip, and for a block not below it. */
  function DepthAt(tip: Option<HeadRef>, blockNum: nat): (depth: nat)
    ensures tip.Some? && blockNum <= tip.value.number ==> depth + blockNum == tip.value.number + 1
    ensures tip.None? || blockNum > tip.value.number ==> depth == 1
  {
    if tip.Some? && tip.value.number > blockNum then tip.value.number - blockNum + 1 else 1
  }

  /** A block's and a receipt's depth is counted from the tip, and no inclusion is verified at a head above it. */
  ghost predicate CountsFrom(tip: Option<HeadRef>, a: Act) {
    && (a.Processed? ==> a.m.confirmations == DepthAt(tip, a.b.number))
    && (a.Took? && a.i.FoundMined? ==> a.i.confirmations == DepthAt(tip, a.i.blockNum))
    && (a.Took? && a.i.Verified? ==> tip.Some? && a.i.headNumber <= tip.value.number)
  }

  /** Every act counted from the tip the acts before it left. */
  ghost predicate DepthTrue(depth: nat, boot: Boot, acts: seq<Act>)
    requires depth > 0
  {
    forall k :: 0 <= k < |acts| ==> CountsFrom(TipOf(depth, boot, acts[..k]), acts[k])
  }

  // ---------------------------------------------------------------- the ring and the books are the journal's

  ghost predicate FilmOf(boot: Boot, depth: nat, acts: seq<Act>, recorded: seq<HeadRef>, tip: Option<HeadRef>, book: Book) {
    && depth > 0
    && recorded == boot.headers + Refs(acts)
    && tip == TipOf(depth, boot, acts) && DepthTrue(depth, boot, acts)
    && book.log == NumbersOf(acts) && book.scanned == ScannedOf(acts)
    && (StartKnown(boot, acts) ==> book.start == StartOf(boot, acts))
  }

  /** At the start. */
  lemma NothingFilmed(boot: Boot, depth: nat)
    requires depth > 0
    ensures FilmOf(boot, depth, [], boot.headers, TipIn(boot.headers), Book(StartOf(boot, []), {}, [], 0, {}, 0))
    ensures boot.resumed.Some? ==> Complete(boot, [], boot.resumed.value)
  {
    assert boot.headers + [] == boot.headers;
  }

  lemma ActFilmed(depth: nat, boot: Boot, acts: seq<Act>, a: Act)
    requires depth > 0
    ensures Refs(acts + [a]) == Refs(acts) + if a.Processed? then [RefOf(a.b)] else []
    ensures NumbersOf(acts + [a]) == NumbersOf(acts) + if a.Processed? then [a.b.number] else []
    ensures a.Processed? ==> ScannedOf(acts + [a]) == ScannedOf(acts) + {a.b.number}
    ensures a.Took? && a.i.ForkedAt? ==> ScannedOf(acts + [a]) == set n | n in ScannedOf(acts) && n <= a.i.ancestor
    ensures a.Landed? || (a.Took? && !a.i.ForkedAt?) ==> ScannedOf(acts + [a]) == ScannedOf(acts)
    ensures a.Processed? ==> TipOf(depth, boot, acts + [a]) == TipMoved(TipOf(depth, boot, acts), RefOf(a.b))
    ensures a.Took? ==> TipOf(depth, boot, acts + [a]) == TipOf(depth, boot, acts)
    ensures a.Landed? ==>
      TipOf(depth, boot, acts + [a]) == TipAt(RecordedAll(depth, boot.headers + Refs(acts)), TipOf(depth, boot, acts), a.number)
  {
    assert (acts + [a])[..|acts|] == acts;
  }

  lemma DepthSnoc(depth: nat, boot: Boot, acts: seq<Act>, a: Act)
    requires depth > 0 && DepthTrue(depth, boot, acts) && CountsFrom(TipOf(depth, boot, acts), a)
    ensures DepthTrue(depth, boot, acts + [a])
  {
    hide CountsFrom, TipOf;
    forall k | 0 <= k < |acts + [a]| ensures CountsFrom(TipOf(depth, boot, (acts + [a])[..k]), (acts + [a])[k]) {
      if k < |acts| {
        assert (acts + [a])[..k] == acts[..k];
      } else {
        assert (acts + [a])[..k] == acts;
      }
    }
  }

  /** A processed block: recorded, booked, and the first one starts the scan. */
  lemma FilmProcessed(boot: Boot, depth: nat, acts: seq<Act>, recorded: seq<HeadRef>, tip: Option<HeadRef>, book: Book, a: Act)
    requires FilmOf(boot, depth, acts, recorded, tip, book) && a.Processed? && CountsFrom(tip, a)
    requires StartKnown(boot, acts) || book.start == a.b.number
    ensures FilmOf(boot, depth, acts + [a], recorded + [RefOf(a.b)], TipMoved(tip, RefOf(a.b)), book.Entered(a.b.number))
  {
    hide Refs, NumbersOf, ScannedOf, TipOf, DepthTrue, CountsFrom;
    ActFilmed(depth, boot, acts, a);
    DepthSnoc(depth, boot, acts, a);
    assert boot.headers + Refs(acts) + [RefOf(a.b)] == boot.headers + (Refs(acts) + [RefOf(a.b)]);
  }

  lemma FilmTook(boot: Boot, depth: nat, acts: seq<Act>, recorded: seq<HeadRef>, tip: Option<HeadRef>, book: Book, a: Act)
    requires FilmOf(boot, depth, acts, recorded, tip, book) && a.Took? && CountsFrom(tip, a)
    ensures FilmOf(boot, depth, acts + [a], recorded, tip, if a.i.ForkedAt? then book.Forked(a.i.ancestor) else book)
  {
    hide Refs, NumbersOf, ScannedOf, TipOf, DepthTrue, CountsFrom;
    ActFilmed(depth, boot, acts, a);
    DepthSnoc(depth, boot, acts, a);
  }

  lemma FilmLanded(boot: Boot, depth: nat, acts: seq<Act>, recorded: seq<HeadRef>, tip: Option<HeadRef>, book: Book, a: Act)
    requires FilmOf(boot, depth, acts, recorded, tip, book) && a.Landed?
    ensures FilmOf(boot, depth, acts + [a], recorded, TipAt(RecordedAll(depth, recorded), tip, a.number), book)
  {
    hide Refs, NumbersOf, ScannedOf, TipOf, DepthTrue, RecordedAll;
    ActFilmed(depth, boot, acts, a);
    DepthSnoc(depth, boot, acts, a);
  }

  /** Other books over the same scan: only the current step's fork point and top differ, or a start not yet made. */
  lemma FilmRebooked(boot: Boot, depth: nat, acts: seq<Act>, recorded: seq<HeadRef>, tip: Option<HeadRef>, b: Book, b': Book)
    requires FilmOf(boot, depth, acts, recorded, tip, b) && b'.log == b.log && b'.scanned == b.scanned
    requires b'.start == b.start || !StartKnown(boot, acts)
    ensures FilmOf(boot, depth, acts, recorded, tip, b')
  {
    hide Refs, NumbersOf, ScannedOf, TipOf, DepthTrue;
  }

  /** With a tip the scan has begun, and the books' gaps are the journal's. */
  lemma FilmBegun(boot: Boot, depth: nat, acts: seq<Act>, recorded: seq<HeadRef>, tip: Option<HeadRef>, book: Book)
    requires FilmOf(boot, depth, acts, recorded, tip, book) && BootOk(boot)
    ensures tip.Some? ==> StartKnown(boot, acts)
    ensures tip.None? && boot.resumed.None? ==> !StartKnown(boot, acts)
    ensures tip.None? ==> boot.resumed != Some(0)
    ensures StartKnown(boot, acts) ==> forall last :: book.NoGap(last) <==> Complete(boot, acts, last)
  {
    hide DepthTrue, ScannedOf;
    TipExists(depth, boot, acts);
    RefsNumbered(acts);
  }

  lemma {:induction false} TipExists(depth: nat, boot: Boot, acts: seq<Act>)
    requires depth > 0
    ensures TipOf(depth, boot, acts).Some? <==> boot.headers != [] || Refs(acts) != []
  {
    if acts == [] {
    } else {
      var init := acts[..|acts| - 1];
      TipExists(depth, boot, init);
      if acts[|acts| - 1].Landed? && boot.headers + Refs(init) == [] { assert RecordedAll(depth, []) == map[]; }
    }
  }

  lemma {:induction false} RefsNumbered(acts: seq<Act>)
    ensures Refs(acts) == [] <==> NumbersOf(acts) == []
  {
    if acts != [] { RefsNumbered(acts[..|acts| - 1]); }
  }

  // ---------------------------------------------------------------- confirmation depth

  /**
   A confirmed event does not overstate its block's depth. From the block up to the tip, both included, there are at
   least as many blocks as it reports, and exactly as many for a block or a receipt; one whose block is above the tip
   reports 1; a verification reports the blocks up to its head.
   */
  ghost predicate DepthHeld(tip: Option<HeadRef>, a: Act, e: Event) {
    && (tip.Some? && e.blockNumber <= tip.value.number ==> e.blockNumber + e.confirmations <= tip.value.number + 1)
    && (tip.None? || e.blockNumber > tip.value.number ==> e.confirmations == 1)
    && (a.Took? && a.i.Verified? ==>
         && tip.Some? && e.blockNumber <= a.i.headNumber <= tip.value.number && e.blockNumber + e.confirmations == a.i.headNumber + 1)
    && (!(a.Took? && a.i.Verified?) && tip.Some? && e.blockNumber <= tip.value.number ==>
         e.blockNumber + e.confirmations == tip.value.number + 1)
  }

  /** And it is due: at least as deep as configured, or in tag mode at or below a known finalized number. */
  ghost predicate NotOverstated(cfg: Config, tip: Option<HeadRef>, a: Act, e: Event) {
    e.typ == Confirmed ==>
      && DepthHeld(tip, a, e)
      && (cfg.tagMode ==> 0 < FinOf(a) && e.blockNumber <= FinOf(a))
      && (!cfg.tagMode ==> e.confirmations >= cfg.depth)
  }

  /** No confirmed event of an act that counts from `tip` overstates its depth. */
  lemma ConfirmsFrom(cfg: Config, s: State, tip: Option<HeadRef>, a: Act, e: Event)
    requires Inv(s) && ActOk(cfg, s, a) && CountsFrom(tip, a) && e in Perform(cfg, s, a).1 && e.typ == Confirmed
    ensures NotOverstated(cfg, tip, a, e)
  {
    hide Inv, Process, Step, WellFormed, WellScanned, Tracking.Candidate;
    PerformSafe(cfg, s, a);
    match a
    case Processed(b, m) => ProcessSafe(cfg, s, b, m);
    case Took(i, _) => StepConfirms(cfg, s, i, e);
  }

  lemma NothingStated(cfg: Config, tip: Option<HeadRef>, a: Act, e: Event)
    requires e.typ != Confirmed
    ensures NotOverstated(cfg, tip, a, e)
  {
  }

  /**
   Confirmation safety of a whole journal: no confirmed event overstates the depth of its block below the tip
   that the earlier acts left, and that depth, or the finalized number known then, meets the configured threshold.
   */
  lemma StreamDepth(cfg: Config, origin: State, depth: nat, boot: Boot, acts: seq<Act>, j: nat)
    requires depth > 0 && Inv(origin) && Lawful(cfg, origin, acts) && DepthTrue(depth, boot, acts)
    requires j < |Run(cfg, origin, acts).evs|
    ensures SafeAt(cfg, origin, acts, j)
    ensures var c := Run(cfg, origin, acts);
            var k := c.emitters[j];
            NotOverstated(cfg, TipOf(depth, boot, acts[..k]), acts[k], c.evs[j])
  {
    hide Run, Inv, ActOk, Perform, CountsFrom, TipOf, NotOverstated;
    RunSafe(cfg, origin, acts, j);
    var c := Run(cfg, origin, acts);
    var k := c.emitters[j];
    LawfulPrefix(cfg, origin, acts, k);
    RunKeepsInv(cfg, origin, acts[..k]);
    if c.evs[j].typ == Confirmed {
      ConfirmsFrom(cfg, Run(cfg, origin, acts[..k]).s, TipOf(depth, boot, acts[..k]), acts[k], c.evs[j]);
    } else {
      NothingStated(cfg, TipOf(depth, boot, acts[..k]), acts[k], c.evs[j]);
    }
  }
}
