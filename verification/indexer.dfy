/**
 The dispatch goroutine: how announced heads and mempool notices drive the chain view and the tracker.

 The journal `acts` is every tracker input and processed block so far; replaying it gives the tracked state and
 the event stream (`Told`), and the ring, the tip, the depths and the numbers scanned (`Filmed`), so none of them
 can hold anything the journal does not account for. Every act is grounded in an answer of the node to a request
 that asked for it (`Nodes.Grounded`). Each step reports the states around it, and `HeadStep`
 says what a step makes of a head; the theorems about whole runs are stated over these reports.
 */
module Indexing {
  import opened Types
  import Tombstones
  import opened Lifecycle
  import opened Invariant
  import opened Effects
  import opened Blocks
  import opened Safety
  import opened Tracking
  import opened Chain
  import opened Ancestry
  import opened Books
  import opened Journal
  import opened Nodes
  import opened Film
  import opened Passes
  import opened Heads
  import Grammar
  import Storage
  import Mirror
  import Lives

  // ---------------------------------------------------------------- what one act does to inclusions

  ghost function BlockAt(r: Receipt): Block {
    Block(r.blockHash, r.blockNumber, ZERO_HASH, [], [], map[])
  }

  /** Mined transactions stay where they were, or go where the node's chain has them. */
  ghost predicate Placed(w: World, s: State, s': State, newest: nat)
    requires WfTree(w.tree)
  {
    forall h :: IsMined(s', h) ==>
      || (IsMined(s, h) && SamePlace(s.txs[h], s'.txs[h]))
      || (s'.txs[h].blockNum <= newest && On(w.tree, w.canon, s'.txs[h].blockNum, s'.txs[h].block))
  }

  lemma PlacedOn(w: World, s: State, s': State, newest: nat, top: nat)
    requires WfTree(w.tree) && Placed(w, s, s', newest) && newest <= top
    requires TxsOn(w.tree, w.canon, s, top)
    ensures TxsOn(w.tree, w.canon, s', top)
  {
  }

  lemma PlacedAlready(w: World, s: State, newest: nat)
    requires WfTree(w.tree)
    ensures Placed(w, s, s, newest)
  {
  }

  lemma NoLegs(hash: Hash)
    ensures LegsOf([], hash)
  {
  }

  lemma PlacedTrans(w: World, s: State, s': State, s'': State, newest: nat)
    requires WfTree(w.tree) && Placed(w, s, s', newest) && Placed(w, s', s'', newest)
    ensures Placed(w, s, s'', newest)
  {
  }

  lemma ReceiptPlaces(w: World, cfg: Config, s: State, hash: Hash, r: Receipt, transfers: seq<Match>,
                      confirmations: nat, finalized: nat, now: Time, newest: nat)
    requires WfTree(w.tree) && Inv(s) && LegsOf(transfers, hash)
    ensures var s' := OnMined(cfg, s, hash, r.blockHash, r.blockNumber, transfers, r.failed, confirmations, finalized, now).0;
            && Inv(s')
            && (r.blockNumber <= newest && On(w.tree, w.canon, r.blockNumber, r.blockHash) ==> Placed(w, s, s', newest))
            && (forall h :: h != hash ==> (h in s'.txs <==> h in s.txs) && (h in s.txs ==> s'.txs[h] == s.txs[h]))
  {
    hide Inv, OnMined;
    OnMinedIsolated(cfg, s, hash, BlockAt(r), transfers, r.failed, Moment(confirmations, finalized, now));
  }

  /** A processed block of the chain leaves every inclusion on the chain. */
  lemma BlockPlaces(w: World, s: State, s': State, b: Block, top: nat)
    requires WfTree(w.tree) && PlacedBy(s, s', b) && TxsOn(w.tree, w.canon, s, top)
    requires On(w.tree, w.canon, b.number, b.hash)
    ensures TxsOn(w.tree, w.canon, s', if b.number > top then b.number else top)
  {
  }

  lemma RecordPlaces(w: World, buf: Headers, depth: nat, b: Block, base: nat, since: set<nat>)
    requires WfTree(w.tree) && depth > 0 && HeadersOn(w.tree, w.canon, buf, base, since)
    requires On(w.tree, w.canon, b.number, b.hash)
    ensures HeadersOn(w.tree, w.canon, Recorded(buf, depth, HeadRef(b.number, b.hash, b.parent)), base, since + {b.number})
  {
  }

  /** An act grounded in a steady node's receipts leaves every inclusion it moves on the node's chain. */
  lemma ActPlaces(cfg: Config, w: World, q: nat, ask: Ask, s: State, a: Act)
    requires WorldOk(w) && w.steady && Inv(s) && ActOk(cfg, s, a) && a.Took? && Source(w, q, ask, s, a)
    ensures Placed(w, s, Perform(cfg, s, a).0, w.head.number)
  {
    hide Inv, WorldOk, Tombstones.Bury, Tombstones.Clear, Unindex, Index, OnMined, On, Candidate;
    WorldTree(w);
    match a.i
    case SeenPending(_, _) =>
    case FoundMined(h, block, num, transfers, failed, conf, fin, now) =>
      WorldReceipt(w, q, h);
      ReceiptPlaces(w, cfg, s, h, w.receipt(q, h).value, transfers, conf, fin, now, w.head.number);
    case Verified(h, head) =>
    case Demoted(h, now) =>
    case Rechecked(h, still, now) =>
  }

  ghost predicate TookOnly(a: seq<Act>, b: seq<Act>) {
    a <= b && forall k :: |a| <= k < |b| ==> b[k].Took?
  }

  lemma {:induction false} TookPlaces(cfg: Config, origin: State, w: World, sp: Span, a: seq<Act>, b: seq<Act>)
    requires WorldOk(w) && w.steady && Inv(origin) && Lawful(cfg, origin, b) && sp.fork.None?
    requires TookOnly(a, b) && Grounded(cfg, origin, w, sp, a, b)
    ensures Placed(w, Run(cfg, origin, a).s, Run(cfg, origin, b).s, w.head.number)
    decreases |b|
  {
    hide Inv, WorldOk, ActOk, Perform, Placed, Source, Spares, Known;
    WorldTree(w);
    if |a| == |b| {
      assert a == b;
      PlacedAlready(w, Run(cfg, origin, a).s, w.head.number);
    } else {
      var n := |b| - 1;
      var init := b[..n];
      LawfulPrefix(cfg, origin, b, n);
      GroundedPrefix(cfg, origin, w, sp, a, b);
      TookPlaces(cfg, origin, w, sp, a, init);
      RunKeepsInv(cfg, origin, init);
      assert GroundedAt(cfg, origin, w, sp, b, n);
      var q :| |sp.lo| <= q < |sp.hi| && Source(w, q, sp.hi[q], Run(cfg, origin, init).s, b[n]);
      ActPlaces(cfg, w, q, sp.hi[q], Run(cfg, origin, init).s, b[n]);
      PlacedTrans(w, Run(cfg, origin, a).s, Run(cfg, origin, init).s, Run(cfg, origin, b).s, w.head.number);
    }
  }

  lemma GroundedPrefix(cfg: Config, origin: State, w: World, sp: Span, a: seq<Act>, b: seq<Act>)
    requires Grounded(cfg, origin, w, sp, a, b) && |a| < |b|
    ensures Grounded(cfg, origin, w, sp, a, b[..|b| - 1])
  {
    hide Run, Sourced, Spares, Known;
    var init := b[..|b| - 1];
    forall k | |a| <= k < |init| ensures GroundedAt(cfg, origin, w, sp, init, k) {
      assert GroundedAt(cfg, origin, w, sp, b, k);
      assert init[..k] == b[..k];
    }
  }


  // ---------------------------------------------------------------- the indexer

  class Indexer {
    const cfg: Config
    const tracker: Tracker
    const chain: ChainState
    var lastProcessed: nat
    var finalizedNum: nat
    var restoredPending: seq<Hash>
    /** Everything handed to the sink. */
    var out: seq<Event>
    /** Every request the node was sent. */
    var asked: Asked

    /** The tracked state and the scan position the journal starts from. */
    ghost const origin: State
    ghost const boot: Boot
    ghost var acts: seq<Act>
    ghost var book: Book

    ghost function Footprint(): set<object>
      reads tracker
    {
      {this, tracker, chain, chain.refs} + tracker.txs.Values
    }

    ghost predicate Shape()
      reads tracker, tracker.txs.Values, chain, chain.refs
    {
      tracker.Valid() && chain.Valid() && tracker.cfg == cfg && Inv(origin) && BootOk(boot)
    }

    /** Replaying the journal gives the tracked state and the whole stream. */
    ghost predicate Told()
      reads `acts, `out, tracker, tracker.txs.Values
    {
      && Lawful(cfg, origin, acts)
      && tracker.View() == Run(cfg, origin, acts).s && out == Run(cfg, origin, acts).evs
    }

    /** It also gives the ring, its tip, the depths counted from it, and the books of the scan. */
    ghost predicate Filmed()
      reads `acts, `book, chain
    {
      FilmOf(boot, chain.depth, acts, chain.recorded, chain.tip, book)
    }

    ghost predicate Valid()
      reads `acts, `out, `book, tracker, tracker.txs.Values, chain, chain.refs
    {
      Shape() && Inv(tracker.View()) && Told() && Filmed()
    }

    /** The ring's tip is never behind the scan; before the first block the scan is where it was resumed. */
    ghost predicate TipAhead()
      reads this, chain
    {
      if chain.tip.Some? then lastProcessed <= chain.tip.value.number
      else lastProcessed == if boot.resumed.Some? then boot.resumed.value else 0
    }

    /** No block from the first one owed up to `lastProcessed` is missing from the journal on the current chain. */
    ghost predicate NoSkip()
      reads this
    {
      lastProcessed > 0 ==> Complete(boot, acts, lastProcessed)
    }

    /** The same by the books. */
    ghost predicate Unbroken()
      reads this
    {
      lastProcessed > 0 ==> book.NoGap(lastProcessed)
    }

    lemma UnbrokenIsNoSkip()
      requires Valid() && TipAhead()
      ensures Unbroken() <==> NoSkip()
    {
      hide Inv, Run, Lawful, FilmOf, Tracker.View, Tracker.Valid, Complete, Book.NoGap;
      FilmBegun(boot, chain.depth, acts, chain.recorded, chain.tip, book);
      if lastProcessed > 0 { assert StartKnown(boot, acts); }
    }

    /** Block `n` may be processed next: the scan has begun, or begins there. */
    ghost predicate Begun(n: nat)
      reads `acts, `book
    {
      StartKnown(boot, acts) || book.start == n
    }

    lemma TipBegun()
      requires Valid()
      ensures chain.tip.Some? || boot.resumed.Some? ==> forall n :: Begun(n)
      ensures chain.tip.None? && boot.resumed.None? ==> !StartKnown(boot, acts)
      ensures chain.tip.None? ==> boot.resumed != Some(0)
    {
      hide Inv, Run, Lawful, FilmOf, Tracker.View, Tracker.Valid, Complete, Book.NoGap;
      FilmBegun(boot, chain.depth, acts, chain.recorded, chain.tip, book);
    }

    /** All tracked inclusions are on the world's chain, and so is every header below the fork or recorded since. */
    ghost predicate Mid(w: World)
      reads `book, tracker, tracker.txs.Values, chain, chain.refs
      requires WfTree(w.tree)
    {
      && chain.Valid()
      && TxsOn(w.tree, w.canon, tracker.View(), book.top)
      && HeadersOn(w.tree, w.canon, chain.Headers(), book.base, book.since)
    }

    /** A fresh start: nothing tracked, nothing recorded. */
    constructor (cfg: Config, ringConfirmations: nat)
      ensures Valid() && fresh(tracker) && fresh(chain) && fresh(chain.refs)
      ensures this.cfg == cfg && origin == FRESH && boot == Boot(None, []) && tracker.View() == FRESH
      ensures chain.tip == None && chain.Headers() == map[]
      ensures lastProcessed == 0 && out == [] && acts == [] && restoredPending == [] && NoSkip() && TipAhead()
    {
      this.cfg := cfg;
      tracker := new Tracker(cfg);
      chain := new ChainState(ringConfirmations);
      lastProcessed, finalizedNum, restoredPending, out, asked := 0, 0, [], [], [];
      origin, boot, acts, book := FRESH, Boot(None, []), [], Book(0, {}, [], 0, {}, 0);
      new;
      FreshOk();
      NothingFilmed(boot, chain.depth);
    }

    /**
     A start from what the last process stored (`Mirror.RestartRecovers` provides the transactions): they are
     tracked again, and the pending ones are to be rechecked at the first head. A process that resumes also takes
     up the saved scan position and the saved headers.
     */
    constructor Restored(cfg: Config, ringConfirmations: nat, stored: seq<Storage.StoredTx>, saved: Option<Saved>)
      requires Inv(ImportAll(FRESH, stored))
      requires saved.Some? ==> forall h :: h in saved.value.headers ==> h.hash != ZERO_HASH
      ensures Valid() && fresh(tracker) && fresh(chain) && fresh(chain.refs) && fresh(tracker.txs.Values)
      ensures this.cfg == cfg && origin == ImportAll(FRESH, stored) && tracker.View() == origin && boot == BootFrom(saved)
      ensures saved.None? ==> boot == Boot(None, [])
      ensures saved.Some? ==>
        boot.headers == saved.value.headers && (saved.value != Saved(0, []) ==> boot.resumed == Some(saved.value.last))
      ensures out == [] && acts == [] && NoSkip()
      ensures lastProcessed == if saved.Some? then saved.value.last else 0
      ensures chain.tip == TipIn(boot.headers) && chain.Headers() == RecordedAll(chain.depth, boot.headers)
      ensures TipAhead() <==> (chain.tip.Some? ==> lastProcessed <= chain.tip.value.number)
      ensures forall h :: h in restoredPending <==> IsPending(origin, h) && exists i :: 0 <= i < |stored| && stored[i].hash == h
    {
      hide Inv, ImportAll, Run, Lawful, FilmOf, IsPending, Storage.Active, RecordedAll, BootFrom;
      BootMeans(saved);
      this.cfg := cfg;
      tracker := new Tracker(cfg);
      chain := new ChainState(ringConfirmations);
      lastProcessed, finalizedNum, restoredPending, out, asked := 0, 0, [], [], [];
      origin, boot, acts := ImportAll(FRESH, stored), BootFrom(saved), [];
      book := Book(StartOf(BootFrom(saved), []), {}, [], 0, {}, 0);
      new;
      NothingTold(cfg, origin);
      assert fresh(chain.refs) && tracker.txs.Values == {};
      if saved.Some? { LoadPosition(saved.value); }
      LoadStored(stored);
      NothingFilmed(boot, chain.depth);
      KeepsNow();
    }

    lemma KeepsNow()
      requires chain.Valid()
      ensures chain.Headers() == RecordedAll(chain.depth, chain.recorded)
    {
    }

    /** The saved scan position and headers. */
    method LoadPosition(saved: Saved)
      requires chain.Valid() && chain.recorded == [] && chain.tip == None && forall h :: h in saved.headers ==> h.hash != ZERO_HASH
      modifies this`lastProcessed, chain`tip, chain`recorded, chain.refs
      ensures chain.Valid() && chain.recorded == saved.headers && chain.tip == TipIn(saved.headers) && lastProcessed == saved.last
    {
      hide RecordedAll, ChainState.Keeps;
      lastProcessed := saved.last;
      for i := 0 to |saved.headers|
        invariant lastProcessed == saved.last && chain.Valid() && chain.recorded == saved.headers[..i] && chain.tip == TipIn(saved.headers[..i])
      {
        chain.Record(saved.headers[i]);
        assert saved.headers[..i + 1][..i] == saved.headers[..i];
      }
      assert saved.headers[..|saved.headers|] == saved.headers;
    }

    method LoadStored(stored: seq<Storage.StoredTx>)
      requires tracker.Valid()
      modifies this`restoredPending, tracker
      ensures tracker.Valid() && fresh(tracker.txs.Values - old(tracker.txs.Values))
      ensures tracker.View() == ImportAll(old(tracker.View()), stored)
      ensures forall h :: h in restoredPending <==> IsPending(tracker.View(), h) && exists i :: 0 <= i < |stored| && stored[i].hash == h
    {
      hide ImportAll, Storage.Active;
      var skipped := tracker.Import(stored);
      restoredPending := PendingOf(stored);
    }

    method PendingOf(stored: seq<Storage.StoredTx>) returns (pending: seq<Hash>)
      requires tracker.Valid()
      ensures forall h :: h in pending <==> IsPending(tracker.View(), h) && exists i :: 0 <= i < |stored| && stored[i].hash == h
    {
      pending := [];
      for i := 0 to |stored|
        invariant forall h :: h in pending <==> IsPending(tracker.View(), h) && exists j :: 0 <= j < i && stored[j].hash == h
      {
        var waits := tracker.IsPending(stored[i].hash);
        if waits { pending := pending + [stored[i].hash]; }
      }
    }

    function TagFinalized(): (fin: nat)
      reads `finalizedNum
      ensures !cfg.tagMode ==> fin == 0
    {
      if cfg.tagMode then finalizedNum else 0
    }

    /** The depth of a block relative to the newest one seen so far, at least 1. */
    function ConfirmationsFor(blockNum: nat): (depth: nat)
      reads chain
      ensures depth == DepthAt(chain.tip, blockNum)
    {
      if chain.tip.Some? && chain.tip.value.number > blockNum then chain.tip.value.number - blockNum + 1 else 1
    }

    method EmitAll(evs: seq<Event>)
      modifies this`out
      ensures out == old(out) + evs
    {
      out := out + evs;
    }

    /** Journals an act whose effect on the tracker and the stream has just happened. */
    ghost method Enter(a: Act, s: State, evs: seq<Event>)
      requires Lawful(cfg, origin, acts) && Run(cfg, origin, acts).s == s && ActOk(cfg, s, a) && Inv(s)
      requires (tracker.View(), evs) == Perform(cfg, s, a) && out == Run(cfg, origin, acts).evs + evs
      modifies this`acts
      ensures acts == old(acts) + [a] && Told() && Inv(tracker.View())
    {
      hide ActOk, Inv, Perform, Run, Lawful;
      LawfulSnoc(cfg, origin, acts, a);
      RunSnoc(cfg, origin, acts, a);
      PerformKeepsInv(cfg, s, a);
      acts := acts + [a];
    }

    /** A single input, whose depth, if it has one, was counted from the tip or from a head no higher. */
    ghost method EnterInput(a: Act, s: State, evs: seq<Event>)
      requires Lawful(cfg, origin, acts) && Run(cfg, origin, acts).s == s && ActOk(cfg, s, a) && Inv(s)
      requires (tracker.View(), evs) == Perform(cfg, s, a) && out == Run(cfg, origin, acts).evs + evs
      requires a.Took? && !a.i.ForkedAt? && Filmed() && (a.i.FoundMined? ==> a.i.confirmations == DepthAt(chain.tip, a.i.blockNum))
      requires a.i.Verified? ==> chain.tip.Some? && a.i.headNumber <= chain.tip.value.number
      modifies this`acts
      ensures acts == old(acts) + [a] && Told() && Inv(tracker.View()) && Filmed()
    {
      hide ActOk, Inv, Perform, Run, Lawful, FilmOf;
      FilmTook(boot, chain.depth, acts, chain.recorded, chain.tip, book, a);
      Enter(a, s, evs);
    }

    lemma Replays()
      requires Valid()
      ensures tracker.Valid() && tracker.cfg == cfg && Inv(origin) && Lawful(cfg, origin, acts) && Inv(tracker.View())
      ensures Run(cfg, origin, acts).s == tracker.View() && Run(cfg, origin, acts).evs == out
    {
    }

    // -------------------------------------------------------------- single inputs

    /** A mined transaction back to pending. */
    method TakeDemotion(hash: Hash) returns (ghost now: Time)
      requires Valid()
      modifies this`out, this`acts, tracker, tracker.txs.Values
      ensures Valid() && tracker.txs.Values == old(tracker.txs.Values)
      ensures acts == old(acts) + [Took(Demoted(hash, now), TagFinalized())]
      ensures tracker.View() == Lifecycle.Demote(old(tracker.View()), hash, now).0
    {
      hide Inv, Run, Lawful, FilmOf, Lifecycle.Demote;
      var at: Time := *;
      now := at;
      ghost var s := tracker.View();
      var evs := tracker.Demote(hash, at);
      EmitAll(evs);
      EnterInput(Took(Demoted(hash, at), TagFinalized()), s, evs);
    }

    /** A candidate whose inclusion was just verified. */
    method TakeConfirmation(hash: Hash, headNumber: nat)
      requires Valid() && Candidate(cfg, tracker.View(), hash, headNumber, TagFinalized())
      requires chain.tip.Some? && headNumber <= chain.tip.value.number
      modifies this`out, this`acts, tracker, tracker.txs.Values
      ensures Valid() && tracker.txs.Values <= old(tracker.txs.Values)
      ensures acts == old(acts) + [Took(Verified(hash, headNumber), TagFinalized())]
      ensures tracker.View() == Lifecycle.Confirm(old(tracker.View()), hash, headNumber).0
    {
      hide Inv, Run, Lawful, FilmOf, Lifecycle.Confirm, Candidate;
      ghost var s := tracker.View();
      var evs := tracker.Confirm(hash, headNumber);
      EmitAll(evs);
      EnterInput(Took(Verified(hash, headNumber), TagFinalized()), s, evs);
    }

    /** A receipt places a transaction. */
    method TakeReceipt(hash: Hash, r: Receipt, transfers: seq<Match>) returns (ghost now: Time)
      requires Valid() && LegsOf(transfers, hash)
      modifies this`out, this`acts, tracker, tracker.txs.Values
      ensures Valid() && fresh(tracker.txs.Values - old(tracker.txs.Values))
      ensures acts == old(acts) + [Took(FoundMined(hash, r.blockHash, r.blockNumber, transfers, r.failed,
                                                   DepthAt(chain.tip, r.blockNumber), TagFinalized(), now), TagFinalized())]
      ensures tracker.View() == OnMined(cfg, old(tracker.View()), hash, r.blockHash, r.blockNumber, transfers, r.failed,
                                        DepthAt(chain.tip, r.blockNumber), TagFinalized(), now).0
    {
      hide Inv, Run, Lawful, FilmOf, OnMined;
      var at: Time := *;
      now := at;
      var conf, fin := ConfirmationsFor(r.blockNumber), TagFinalized();
      ghost var s := tracker.View();
      var evs := tracker.OnMined(hash, r.blockHash, r.blockNumber, transfers, r.failed, conf, fin, at);
      EmitAll(evs);
      EnterInput(Took(FoundMined(hash, r.blockHash, r.blockNumber, transfers, r.failed, conf, fin, at), fin), s, evs);
    }

    /** A stale pending transaction waits on or is dropped. */
    method TakeRecheck(hash: Hash, stillKnown: bool) returns (ghost now: Time)
      requires Valid()
      modifies this`out, this`acts, tracker, tracker.txs.Values
      ensures Valid() && tracker.txs.Values <= old(tracker.txs.Values)
      ensures acts == old(acts) + [Took(Rechecked(hash, stillKnown, now), TagFinalized())]
    {
      hide Inv, Run, Lawful, FilmOf, Lifecycle.OnDropStale;
      var at: Time := *;
      now := at;
      ghost var s := tracker.View();
      var evs := tracker.OnDropStale(hash, stillKnown, at);
      EmitAll(evs);
      EnterInput(Took(Rechecked(hash, stillKnown, at), TagFinalized()), s, evs);
    }

    /** A transaction seen in the mempool. */
    method TakeNotice(matches: seq<Match>) returns (ghost now: Time)
      requires Valid() && (matches != [] ==> LegsOf(matches, matches[0].txHash))
      modifies this`out, this`acts, tracker, tracker.txs.Values
      ensures Valid() && fresh(tracker.txs.Values - old(tracker.txs.Values))
      ensures acts == old(acts) + [Took(SeenPending(matches, now), TagFinalized())]
      ensures tracker.View() == Lifecycle.OnPending(old(tracker.View()), matches, now).0
    {
      hide Inv, Run, Lawful, FilmOf, Lifecycle.OnPending;
      var at: Time := *;
      now := at;
      ghost var s := tracker.View();
      var evs := tracker.OnPending(matches, at);
      EmitAll(evs);
      EnterInput(Took(SeenPending(matches, at), TagFinalized()), s, evs);
    }

    /** Everything mined above the ancestor back to pending; what was scanned there is void. */
    method TakeFork(ancestor: nat) returns (ghost order: seq<Hash>, ghost now: Time)
      requires Valid()
      modifies this`out, this`acts, this`book, tracker, tracker.txs.Values
      ensures Valid() && tracker.txs.Values == old(tracker.txs.Values)
      ensures Enumerates(order, old(tracker.View()).txs.Keys) && book == old(book).Forked(ancestor)
      ensures acts == old(acts) + [Took(ForkedAt(ancestor, order, now), TagFinalized())]
      ensures tracker.View() == Lifecycle.OnReorg(old(tracker.View()), ancestor, order, now).0
      ensures out == old(out) + Lifecycle.OnReorg(old(tracker.View()), ancestor, order, now).1
    {
      hide *;
      Replays();
      Films();
      var at: Time := *;
      now := at;
      ghost var s := tracker.View();
      var evs;
      evs, order := tracker.OnReorg(ancestor, at);
      EmitAll(evs);
      ghost var a := Took(ForkedAt(ancestor, order, at), TagFinalized());
      ForkActOk(cfg, s, ancestor, order, at, TagFinalized());
      FilmTook(boot, chain.depth, acts, chain.recorded, chain.tip, book, a);
      Enter(a, s, evs);
      book := book.Forked(ancestor);
      Assemble();
    }

    /** The tip moves to a buffered number, and not otherwise. */
    method TakeLanding(number: nat)
      requires Valid()
      modifies this`acts, chain`tip
      ensures Valid() && acts == old(acts) + [Landed(number, TagFinalized())]
      ensures chain.Valid() && chain.Headers() == old(chain.Headers())
      ensures chain.tip == TipAt(chain.Headers(), old(chain.tip), number)
      ensures number in chain.Headers() ==> chain.Headers()[number].number == number
    {
      hide Inv, Run, Lawful, FilmOf, RecordedAll, Tracker.View, Tracker.Valid;
      KeepsNow();
      ghost var a := Landed(number, TagFinalized());
      FilmLanded(boot, chain.depth, acts, chain.recorded, chain.tip, book, a);
      Enter(a, tracker.View(), []);
      chain.ResetTip(number);
    }

    // -------------------------------------------------------------- the lifecycle pass

    lemma NothingTaken(w: World, sp: Span, q: nat, a: seq<Act>, s: State, h: Hash)
      requires AskedAt(sp, q, ForReceipt(h))
      ensures Grounded(cfg, origin, w, sp, a, a) && TookOnly(a, a) && a + [] == a && Untouched(s, s, h)
    {
    }

    lemma Begin(w: World, sp: Span, a: seq<Act>)
      requires sp.lo <= sp.hi
      ensures Grounded(cfg, origin, w, sp, a, a) && TookOnly(a, a) && a + Flat([]) == a
    {
    }

    /** One more request of the batch was acted on. */
    lemma Extend1(w: World, sp: Span, a: seq<Act>, b: seq<Act>, c: seq<Act>)
      requires Grounded(cfg, origin, w, sp, a, b) && TookOnly(a, b)
      requires Grounded(cfg, origin, w, sp, b, c) && TookOnly(b, c)
      ensures Grounded(cfg, origin, w, sp, a, c) && TookOnly(a, c)
    {
      hide Grounded;
      GroundedJoin(cfg, origin, w, sp, a, b, c);
    }

    /** One batch of receipts. */
    method FetchReceipts(w: World, hashes: seq<Hash>) returns (receipts: seq<Answer<Receipt>>)
      modifies this`asked
      ensures asked == old(asked) + ReceiptAsks(hashes) && |receipts| == |hashes|
      ensures forall j :: 0 <= j < |hashes| ==> receipts[j] == w.receipt(|old(asked)| + j, hashes[j])
    {
      receipts := [];
      for i := 0 to |hashes|
        invariant asked == old(asked) + ReceiptAsks(hashes)[..i] && |receipts| == i
        invariant forall j :: 0 <= j < i ==> receipts[j] == w.receipt(|old(asked)| + j, hashes[j])
      {
        receipts := receipts + [w.receipt(|asked|, hashes[i])];
        asked := asked + [ForReceipt(hashes[i])];
      }
    }

    /** One batch of transaction lookups. */
    method FetchPresence(w: World, hashes: seq<Hash>) returns (presences: seq<Presence>)
      modifies this`asked
      ensures asked == old(asked) + PresenceAsks(hashes) && |presences| == |hashes|
      ensures forall j :: 0 <= j < |hashes| ==> presences[j] == w.presence(|old(asked)| + j, hashes[j])
    {
      presences := [];
      for i := 0 to |hashes|
        invariant asked == old(asked) + PresenceAsks(hashes)[..i] && |presences| == i
        invariant forall j :: 0 <= j < i ==> presences[j] == w.presence(|old(asked)| + j, hashes[j])
      {
        presences := presences + [w.presence(|asked|, hashes[i])];
        asked := asked + [ForPresence(hashes[i])];
      }
    }

    /** The candidates whose block the scan has reached, with the block each is tracked in. */
    method CollectChecks(candidates: seq<Hash>, scanFloor: nat) returns (checks: seq<Check>)
      requires tracker.Valid()
      ensures checks == ChecksOf(tracker.View(), candidates, scanFloor)
    {
      checks := [];
      for i := 0 to |candidates|
        invariant checks == ChecksOf(tracker.View(), candidates[..i], scanFloor)
      {
        assert candidates[..i + 1][..i] == candidates[..i];
        var block, minedAt, mined := tracker.MinedBlock(candidates[i]);
        if mined && minedAt >= scanFloor {
          checks := checks + [Check(candidates[i], block)];
        }
      }
      assert candidates[..|candidates|] == candidates;
    }

    /** Applies one receipt check: confirm, demote, or demote and mine elsewhere. */
    method ApplyCheck(w: World, ghost lo: Asked, ghost q: nat, c: Check, answer: Answer<Receipt>, headNumber: nat, ghost floor: nat)
      returns (ok: bool, ghost seg: seq<Act>)
      requires Valid() && Checkable(cfg, tracker.View(), c, headNumber, TagFinalized(), floor)
      requires answer == w.receipt(q, c.hash) && AskedAt(Span(lo, asked, TagFinalized(), floor, None), q, ForReceipt(c.hash))
      requires chain.tip.Some? && headNumber <= chain.tip.value.number
      modifies this`out, this`acts, tracker, tracker.txs.Values
      ensures Valid() && fresh(tracker.txs.Values - old(tracker.txs.Values))
      ensures acts == old(acts) + seg && (ok <==> !answer.Refused?)
      ensures Verdict(chain.tip, c, answer, headNumber, TagFinalized(), seg)
      ensures Grounded(cfg, origin, w, Span(lo, asked, TagFinalized(), floor, None), old(acts), acts) && TookOnly(old(acts), acts)
      ensures Untouched(old(tracker.View()), tracker.View(), c.hash)
    {
      hide *;
      Replays();
      CheckableFacts(cfg, tracker.View(), c, headNumber, TagFinalized(), floor);
      ghost var s0, sp := tracker.View(), Span(lo, asked, TagFinalized(), floor, None);
      ok, seg := true, [];
      match answer {
        case NotFound =>
          ghost var now := TakeDemotion(c.hash);
          seg := [Took(Demoted(c.hash, now), TagFinalized())];
          SingleVerdicts(chain.tip, c, BlankReceipt(), headNumber, TagFinalized(), now);
          DemotionGrounded(cfg, origin, w, sp, q, old(acts), c.hash, now, TagFinalized());
          DemoteOthers(s0, c.hash, now);
        case Refused =>
          ok := false;
          SingleVerdicts(chain.tip, c, BlankReceipt(), headNumber, TagFinalized(), 0);
          NothingTaken(w, sp, q, acts, s0, c.hash);
        case Served(r) =>
          if r.blockHash != c.tracked {
            seg := MoveElsewhere(w, lo, q, c, r, floor);
            MovedVerdict(chain.tip, c, r, headNumber, TagFinalized(), seg);
          } else {
            seg := [Took(Verified(c.hash, headNumber), TagFinalized())];
            SingleVerdicts(chain.tip, c, r, headNumber, TagFinalized(), 0);
            ConfirmationGrounded(cfg, origin, w, sp, q, old(acts), c.hash, headNumber, TagFinalized());
            ConfirmOthers(cfg, s0, c.hash, headNumber, TagFinalized());
            TakeConfirmation(c.hash, headNumber);
          }
      }
    }

    /** The receipt names another block: out of the tracked one, into that one. */
    method MoveElsewhere(w: World, ghost lo: Asked, ghost q: nat, c: Check, r: Receipt, ghost floor: nat) returns (ghost seg: seq<Act>)
      requires Valid() && w.receipt(q, c.hash) == Served(r) && r.blockHash != c.tracked
      requires AskedAt(Span(lo, asked, TagFinalized(), floor, None), q, ForReceipt(c.hash))
      requires IsMined(tracker.View(), c.hash) && tracker.View().txs[c.hash].block == c.tracked
      requires floor <= tracker.View().txs[c.hash].blockNum
      modifies this`out, this`acts, tracker, tracker.txs.Values
      ensures Valid() && fresh(tracker.txs.Values - old(tracker.txs.Values))
      ensures acts == old(acts) + seg && Moved(chain.tip, c, r, TagFinalized(), seg)
      ensures Grounded(cfg, origin, w, Span(lo, asked, TagFinalized(), floor, None), old(acts), acts) && TookOnly(old(acts), acts)
      ensures Untouched(old(tracker.View()), tracker.View(), c.hash)
    {
      hide *;
      Replays();
      ghost var s0, a0, sp := tracker.View(), acts, Span(lo, asked, TagFinalized(), floor, None);
      ghost var now := TakeDemotion(c.hash);
      DemotionGrounded(cfg, origin, w, sp, q, a0, c.hash, now, TagFinalized());
      DemoteOthers(s0, c.hash, now);
      ghost var s1, a1 := tracker.View(), acts;
      Replays();
      NoLegs(c.hash);
      ghost var later := TakeReceipt(c.hash, r, []);
      ReceiptGrounded(cfg, origin, w, sp, a1, q, acts[|a1|]);
      GroundedJoin(cfg, origin, w, sp, a0, a1, acts);
      TookTwice(a0, a1, acts);
      MinedOthers(cfg, s1, c.hash, r, [], DepthAt(chain.tip, r.blockNumber), TagFinalized(), later);
      UntouchedTwice(s0, s1, tracker.View(), c.hash);
      MovedBy(chain.tip, c, r, TagFinalized(), now, later);
      seg := [Took(Demoted(c.hash, now), TagFinalized()), acts[|a1|]];
      assert acts == a0 + seg;
    }

    /** The receipt checks of the confirmation candidates: fetched in one batch, applied in order. */
    method VerifyInclusions(w: World, candidates: seq<Hash>, headNumber: nat, scanFloor: nat)
      returns (ok: bool, ghost verdicts: seq<seq<Act>>)
      requires Valid() && NoDup(candidates)
      requires forall h :: h in candidates ==> Candidate(cfg, tracker.View(), h, headNumber, TagFinalized())
      requires chain.tip.Some? && headNumber <= chain.tip.value.number
      modifies this`out, this`acts, this`asked, tracker, tracker.txs.Values
      ensures Valid() && fresh(tracker.txs.Values - old(tracker.txs.Values))
      ensures var checks := ChecksOf(old(tracker.View()), candidates, scanFloor);
              && asked == old(asked) + ReceiptAsks(HashesOf(checks)) && acts == old(acts) + Flat(verdicts)
              && |verdicts| <= |checks| && (ok <==> |verdicts| == |checks|)
              && ChecksApplied(w, chain.tip, |old(asked)|, checks, headNumber, TagFinalized(), verdicts)
      ensures Grounded(cfg, origin, w, Span(old(asked), asked, TagFinalized(), scanFloor, None), old(acts), acts)
      ensures TookOnly(old(acts), acts)
    {
      hide *;
      Replays();
      ghost var lo, q, a0, s0, fin := asked, |asked|, acts, tracker.View(), TagFinalized();
      var checks := CollectChecks(candidates, scanFloor);
      ChecksFacts(cfg, s0, candidates, headNumber, fin, scanFloor);
      var receipts := FetchReceipts(w, HashesOf(checks));
      ghost var sp := Span(lo, asked, fin, scanFloor, None);
      BatchAsked(sp, HashesOf(checks));
      ok, verdicts := true, [];
      NoVerdicts(w, chain.tip, q, checks, headNumber, fin);
      Begin(w, sp, a0);
      for i := 0 to |checks|
        invariant Valid() && fresh(tracker.txs.Values - old(tracker.txs.Values)) && TagFinalized() == fin && asked == sp.hi
        invariant ok && |verdicts| == i && acts == a0 + Flat(verdicts) && TookOnly(a0, acts)
        invariant Grounded(cfg, origin, w, sp, a0, acts)
        invariant Verdicts(w, chain.tip, q, checks, headNumber, fin, verdicts)
        invariant AllCheckable(cfg, tracker.View(), checks, i, headNumber, fin, scanFloor)
      {
        ghost var a1, s1, seg := acts, tracker.View(), [];
        NextCheckable(cfg, s1, checks, i, headNumber, fin, scanFloor);
        ok, seg := ApplyCheck(w, lo, q + i, checks[i], receipts[i], headNumber, scanFloor);
        StillCheckable(cfg, s1, tracker.View(), checks, i, headNumber, fin, scanFloor);
        Extend1(w, sp, a0, a1, acts);
        if !ok {
          RefusedNothing(chain.tip, checks[i], receipts[i], headNumber, fin, seg);
          assert acts == a1 + [] == a1;
          ChecksEnd(w, chain.tip, q, checks, headNumber, fin, verdicts);
          return;
        }
        FlatSnoc(verdicts, seg);
        ChecksSnoc(w, chain.tip, q, checks, headNumber, fin, verdicts, seg);
        verdicts := verdicts + [seg];
      }
      ChecksEnd(w, chain.tip, q, checks, headNumber, fin, verdicts);
    }

    /** Applies a found receipt to a pending transaction, recovering its legs from the receipt's logs. */
    method Promote(w: World, ghost lo: Asked, ghost q: nat, hash: Hash, r: Receipt, ghost floor: nat) returns (ghost seg: seq<Act>)
      requires Valid() && WorldOk(w) && w.receipt(q, hash) == Served(r)
      requires AskedAt(Span(lo, asked, TagFinalized(), floor, None), q, ForReceipt(hash))
      modifies this`out, this`acts, tracker, tracker.txs.Values
      ensures Valid() && fresh(tracker.txs.Values - old(tracker.txs.Values))
      ensures acts == old(acts) + seg && Promotion(chain.tip, old(tracker.View()), hash, Served(r), TagFinalized(), seg)
      ensures Grounded(cfg, origin, w, Span(lo, asked, TagFinalized(), floor, None), old(acts), acts) && TookOnly(old(acts), acts)
    {
      hide *;
      Replays();
      WorldTree(w);
      WorldReceipt(w, q, hash);
      ghost var a0 := acts;
      ReceiptLegs(w, hash, r);
      ghost var s0 := tracker.View();
      var transfers := tracker.NativeLegs(hash);
      Promoted(chain.tip, s0, hash, r, TagFinalized(), 0);
      NativeLegsOwn(s0, hash);
      LegsConcat(transfers, r.legs, hash);
      ghost var now := TakeReceipt(hash, r, transfers + r.legs);
      ReceiptGrounded(cfg, origin, w, Span(lo, asked, TagFinalized(), floor, None), a0, q, acts[|a0|]);
      Promoted(chain.tip, s0, hash, r, TagFinalized(), now);
      seg := [acts[|a0|]];
    }

    /** The receipts of the stale transactions: promotions in order, and the transactions without a receipt. */
    method PromoteFound(w: World, hashes: seq<Hash>, ghost floor: nat)
      returns (ok: bool, unmined: seq<Hash>, ghost promotions: seq<seq<Act>>)
      requires Valid() && WorldOk(w)
      modifies this`out, this`acts, this`asked, tracker, tracker.txs.Values
      ensures Valid() && fresh(tracker.txs.Values - old(tracker.txs.Values))
      ensures asked == old(asked) + ReceiptAsks(hashes) && acts == old(acts) + Flat(promotions)
      ensures |promotions| <= |hashes| && (ok <==> |promotions| == |hashes|)
      ensures PromotionsApplied(cfg, origin, w, chain.tip, |old(asked)|, hashes, TagFinalized(), old(acts), promotions)
      ensures ok ==> unmined == Unmined(w, |old(asked)|, hashes)
      ensures Grounded(cfg, origin, w, Span(old(asked), asked, TagFinalized(), floor, None), old(acts), acts)
      ensures TookOnly(old(acts), acts)
    {
      hide *;
      ghost var lo, q, a0, fin := asked, |asked|, acts, TagFinalized();
      var receipts := FetchReceipts(w, hashes);
      ghost var sp := Span(lo, asked, fin, floor, None);
      BatchAsked(sp, hashes);
      ok, unmined, promotions := true, [], [];
      NoPromotions(cfg, origin, w, chain.tip, q, hashes, fin, a0);
      Begin(w, sp, a0);
      for i := 0 to |hashes|
        invariant Valid() && fresh(tracker.txs.Values - old(tracker.txs.Values)) && TagFinalized() == fin && asked == sp.hi
        invariant ok && |promotions| == i && acts == a0 + Flat(promotions) && TookOnly(a0, acts)
        invariant Grounded(cfg, origin, w, sp, a0, acts)
        invariant unmined == Unmined(w, q, hashes[..i])
        invariant Promotions(cfg, origin, w, chain.tip, q, hashes, fin, a0, promotions)
      {
        Replays();
        ghost var a1, s1, seg := acts, tracker.View(), [];
        UnminedGrows(w, q, hashes, i);
        match receipts[i] {
          case Served(r) =>
            seg := Promote(w, lo, q + i, hashes[i], r, floor);
            Extend1(w, sp, a0, a1, acts);
          case NotFound =>
            unmined := unmined + [hashes[i]];
            NotPromoted(chain.tip, s1, hashes[i], receipts[i], fin);
          case Refused =>
            PromotionsEnd(cfg, origin, w, chain.tip, q, hashes, fin, a0, promotions);
            return false, unmined, promotions;
        }
        FlatSnoc(promotions, seg);
        PromotionsSnoc(cfg, origin, w, chain.tip, q, hashes, fin, a0, promotions, seg);
        promotions := promotions + [seg];
        assert acts == a1 + seg;
      }
      assert hashes[..|hashes|] == hashes;
      PromotionsEnd(cfg, origin, w, chain.tip, q, hashes, fin, a0, promotions);
    }

    /** What becomes of the stale transactions without a receipt. */
    method ResolveFates(w: World, unmined: seq<Hash>, ghost floor: nat) returns (ok: bool, ghost fates: seq<seq<Act>>)
      requires Valid()
      modifies this`out, this`acts, this`asked, tracker, tracker.txs.Values
      ensures Valid() && fresh(tracker.txs.Values - old(tracker.txs.Values))
      ensures asked == old(asked) + PresenceAsks(unmined) && acts == old(acts) + Flat(fates)
      ensures ok <==> |fates| == |unmined|
      ensures FatesApplied(w, |old(asked)|, unmined, TagFinalized(), fates)
      ensures Grounded(cfg, origin, w, Span(old(asked), asked, TagFinalized(), floor, None), old(acts), acts)
      ensures TookOnly(old(acts), acts)
    {
      hide *;
      ghost var lo, q, a0, fin := asked, |asked|, acts, TagFinalized();
      var presences := FetchPresence(w, unmined);
      ghost var sp := Span(lo, asked, fin, floor, None);
      LookupAsked(sp, unmined);
      ok, fates := true, [];
      Begin(w, sp, a0);
      NoFates(w, q, unmined, fin);
      for i := 0 to |unmined|
        invariant Valid() && fresh(tracker.txs.Values - old(tracker.txs.Values)) && TagFinalized() == fin && asked == sp.hi
        invariant ok && |fates| == i && acts == a0 + Flat(fates) && TookOnly(a0, acts)
        invariant Grounded(cfg, origin, w, sp, a0, acts)
        invariant Fates(w, q, unmined, fin, fates)
      {
        if presences[i] == Unclear {
          FatesEnd(w, q, unmined, fin, fates);
          return false, fates;
        }
        ghost var a1 := acts;
        ghost var now := TakeRecheck(unmined[i], presences[i] == InPool);
        RecheckGrounded(cfg, origin, w, sp, a1, q + i, acts[|a1|]);
        Extend1(w, sp, a0, a1, acts);
        FlatSnoc(fates, [acts[|a1|]]);
        FatesSnoc(w, q, unmined, fin, fates, [acts[|a1|]]);
        fates := fates + [[acts[|a1|]]];
      }
      FatesEnd(w, q, unmined, fin, fates);
    }

    /** Resolves the fate of tracked pending transactions: receipts first, then mempool existence. */
    method RecheckPending(w: World, hashes: seq<Hash>, ghost floor: nat)
      returns (ok: bool, ghost promotions: seq<seq<Act>>, ghost fates: seq<seq<Act>>)
      requires Valid() && WorldOk(w)
      modifies this`out, this`acts, this`asked, tracker, tracker.txs.Values
      ensures Valid() && fresh(tracker.txs.Values - old(tracker.txs.Values))
      ensures old(asked) <= asked
      ensures RecheckOf(cfg, origin, w, chain.tip, |old(asked)|, hashes, TagFinalized(), old(acts), acts, promotions, fates, ok)
      ensures Grounded(cfg, origin, w, Span(old(asked), asked, TagFinalized(), floor, None), old(acts), acts)
      ensures TookOnly(old(acts), acts)
    {
      hide *;
      ghost var lo, q, a0, fin := asked, |asked|, acts, TagFinalized();
      var unmined;
      fates := [];
      ok, unmined, promotions := PromoteFound(w, hashes, floor);
      if !ok {
        RecheckStopped(cfg, origin, w, chain.tip, q, hashes, fin, a0, acts, promotions);
        return;
      }
      ghost var q1, a1 := asked, acts;
      ok, fates := ResolveFates(w, unmined, floor);
      RecheckDone(cfg, origin, w, chain.tip, q, hashes, fin, a0, acts, promotions, fates, ok);
      TookTwice(a0, a1, acts);
      WiderHalves(w, lo, q1, asked, fin, floor);
      GroundedThen(cfg, origin, w, Span(lo, q1, fin, floor, None), Span(q1, asked, fin, floor, None),
                   Span(lo, asked, fin, floor, None), a0, a1, acts);
    }

    /** The stale candidates plus the restored transactions not already among them. */
    method WithRestored(stale: seq<Hash>) returns (all: seq<Hash>)
      ensures all == stale + Unlisted(restoredPending, stale)
    {
      all := stale;
      for i := 0 to |restoredPending|
        invariant all == stale + Unlisted(restoredPending[..i], stale)
      {
        assert restoredPending[..i + 1][..i] == restoredPending[..i];
        if restoredPending[i] !in stale {
          all := all + [restoredPending[i]];
        }
      }
      assert restoredPending[..|restoredPending|] == restoredPending;
    }

    /** The pass over the tracked lifecycles at a head: receipt checks of the candidates, then the stale ones. */
    method LifecyclePass(w: World, headNumber: nat, scanFloor: nat) returns (ok: bool, ghost log: PassLog)
      requires Valid() && WorldOk(w)
      requires chain.tip.Some? && headNumber <= chain.tip.value.number
      modifies this`out, this`acts, this`asked, tracker, tracker.txs.Values
      ensures Valid() && fresh(tracker.txs.Values - old(tracker.txs.Values))
      ensures old(asked) <= asked
      ensures PassOf(cfg, origin, w, chain.tip, restoredPending, headNumber, scanFloor, TagFinalized(), |old(asked)|,
                     old(acts), acts, log, ok)
      ensures Grounded(cfg, origin, w, Span(old(asked), asked, TagFinalized(), scanFloor, None), old(acts), acts)
      ensures TookOnly(old(acts), acts)
    {
      hide *;
      Replays();
      ghost var lo, q, a0, fin := asked, |asked|, acts, TagFinalized();
      var now: Time := *;
      var confirm, stale := tracker.OnHead(headNumber, TagFinalized(), now);
      ghost var s0 := tracker.View();
      ghost var verdicts, promotions, fates := [], [], [];
      ok, verdicts := VerifyInclusions(w, confirm, headNumber, scanFloor);
      log := PassLog(confirm, stale, now, verdicts, [], []);
      if !ok {
        PassStopped(cfg, origin, w, chain.tip, restoredPending, headNumber, scanFloor, TagFinalized(), q, a0, acts, log);
        return;
      }
      ghost var q1, a1 := asked, acts;
      var hashes := WithRestored(stale);
      ok, promotions, fates := RecheckPending(w, hashes, scanFloor);
      log := PassLog(confirm, stale, now, verdicts, promotions, fates);
      PassDone(cfg, origin, w, chain.tip, restoredPending, headNumber, scanFloor, TagFinalized(), q, a0, acts, log, ok);
      TookTwice(a0, a1, acts);
      WiderHalves(w, lo, q1, asked, fin, scanFloor);
      GroundedThen(cfg, origin, w, Span(lo, q1, fin, scanFloor, None), Span(q1, asked, fin, scanFloor, None),
                   Span(lo, asked, fin, scanFloor, None), a0, a1, acts);
    }

    method ForgetRestored()
      modifies this`restoredPending
      ensures restoredPending == []
    {
      restoredPending := [];
    }

    /** In tag mode, the node's finalized number when it can be resolved; the cached one otherwise. */
    method RefreshFinality(w: World)
      modifies this`finalizedNum, this`asked
      ensures asked == old(asked) + Refreshing(cfg)
      ensures TagFinalized() == Refreshed(cfg, w, |old(asked)|, old(TagFinalized()))
      ensures !cfg.tagMode ==> finalizedNum == old(finalizedNum)
    {
      if cfg.tagMode {
        if w.finality(|asked|).Some? {
          finalizedNum := w.finality(|asked|).value;
        }
        asked := asked + [ForFinality];
      }
    }

    /**
     Confirms mined transactions past the threshold after a fresh receipt check, and resolves timed-out pending
     ones. The restored transactions are forgotten once their recheck went through.
     */
    method UpdateLifecycles(w: World, headNumber: nat, scanFloor: nat) returns (ok: bool, ghost log: PassLog)
      requires Valid() && WorldOk(w)
      requires chain.tip.Some? && headNumber <= chain.tip.value.number
      modifies this`out, this`acts, this`asked, this`finalizedNum, this`restoredPending, tracker, tracker.txs.Values
      ensures Valid() && fresh(tracker.txs.Values - old(tracker.txs.Values))
      ensures TagFinalized() == Refreshed(cfg, w, |old(asked)|, old(TagFinalized()))
      ensures PassOf(cfg, origin, w, chain.tip, old(restoredPending), headNumber, scanFloor, TagFinalized(),
                     |old(asked) + Refreshing(cfg)|, old(acts), acts, log, ok)
      ensures restoredPending == if ok then [] else old(restoredPending)
      ensures old(asked) <= asked
      ensures Grounded(cfg, origin, w, Span(old(asked), asked, old(TagFinalized()), scanFloor, None), old(acts), acts)
      ensures Known(w, old(asked), asked, old(TagFinalized()), TagFinalized())
      ensures w.steady ==> Placed(w, old(tracker.View()), tracker.View(), w.head.number)
    {
      hide *;
      WorldTree(w);
      Replays();
      ghost var q, a0 := asked, acts;
      RefreshFinality(w);
      ghost var q1 := asked;
      ok, log := LifecyclePass(w, headNumber, scanFloor);
      ghost var sp := Span(q1, asked, TagFinalized(), scanFloor, None);
      RefreshedKnown(cfg, w, q, asked, old(TagFinalized()), scanFloor);
      GroundedWiden(cfg, origin, w, sp, Span(q, asked, old(TagFinalized()), scanFloor, None), a0, acts);
      Replays();
      if w.steady { TookPlaces(cfg, origin, w, sp, a0, acts); }
      if ok { ForgetRestored(); }
    }

    // -------------------------------------------------------------- processing one block

    /** What happened since journal `a`, request `q` and finality `fin` is grounded in the world's answers. */
    ghost predicate Went(w: World, a: seq<Act>, q: Asked, fin: nat, floor: nat, fork: Option<nat>)
      reads `acts, `asked, `finalizedNum
    {
      Grounded(cfg, origin, w, Span(q, asked, fin, floor, fork), a, acts) && Known(w, q, asked, fin, TagFinalized())
    }

    lemma WentNowhere(w: World, floor: nat, fork: Option<nat>)
      ensures Went(w, acts, asked, TagFinalized(), floor, fork)
    {
    }

    /** One stretch after another. */
    lemma WentOn(w: World, a0: seq<Act>, q0: Asked, f0: nat, floor0: nat, fork: Option<nat>,
                 a1: seq<Act>, q1: Asked, f1: nat, floor: nat)
      requires Grounded(cfg, origin, w, Span(q0, q1, f0, floor0, fork), a0, a1) && Known(w, q0, q1, f0, f1)
      requires Went(w, a1, q1, f1, floor, None) && floor0 <= floor
      ensures Went(w, a0, q0, f0, floor0, fork)
    {
      hide Run, Grounded, Wider;
      GroundedWider(cfg, origin, w, Span(q1, asked, f1, floor, None), Span(q1, asked, f1, floor, fork), a1, acts);
      WentBoth(w, a0, q0, f0, floor0, fork, a1, q1, f1, floor);
    }

    /** Both within one reorg. */
    lemma WentBoth(w: World, a0: seq<Act>, q0: Asked, f0: nat, floor0: nat, fork: Option<nat>,
                   a1: seq<Act>, q1: Asked, f1: nat, floor: nat)
      requires Grounded(cfg, origin, w, Span(q0, q1, f0, floor0, fork), a0, a1) && Known(w, q0, q1, f0, f1)
      requires Went(w, a1, q1, f1, floor, fork) && floor0 <= floor
      ensures Went(w, a0, q0, f0, floor0, fork)
    {
      hide Run, Source, GroundedAt, Known;
      KnownLater(w, q0, q1, asked, f0, f1, TagFinalized());
      FirstWider(w, q0, q1, asked, f0, floor0, fork);
      assert Wider(w, Span(q1, asked, f1, floor, fork), Span(q0, asked, f0, floor0, fork));
      GroundedThen(cfg, origin, w, Span(q0, q1, f0, floor0, fork), Span(q1, asked, f1, floor, fork), Span(q0, asked, f0, floor0, fork),
                   a0, a1, acts);
    }

    lemma WentParts(w: World, a: seq<Act>, q: Asked, fin: nat, floor: nat, fork: Option<nat>)
      requires Went(w, a, q, fin, floor, fork)
      ensures Grounded(cfg, origin, w, Span(q, asked, fin, floor, fork), a, acts) && Known(w, q, asked, fin, TagFinalized())
      ensures q <= asked && a <= acts
    {
    }

    /** Feeds one scanned block, the answer to request `q`, to the tracker and records its header. */
    method ProcessBlock(w: World, ghost lo: Asked, ghost q: nat, b: Block, ghost floor: nat) returns (ghost m: Moment)
      requires Valid() && WfTree(w.tree) && WellScanned(b) && b.hash != ZERO_HASH && Begun(b.number)
      requires ServedAt(w, Span(lo, asked, TagFinalized(), floor, None), q, b)
      modifies this`out, this`acts, this`book, tracker, tracker.txs.Values, chain, chain.refs
      ensures Valid() && fresh(tracker.txs.Values - old(tracker.txs.Values))
      ensures m.confirmations == old(ConfirmationsFor(b.number)) && m.finalized == TagFinalized()
      ensures old(chain.tip).Some? && b.number <= old(chain.tip).value.number ==> b.number + m.confirmations == old(chain.tip).value.number + 1
      ensures old(chain.tip).None? || b.number > old(chain.tip).value.number ==> m.confirmations == 1
      ensures acts == old(acts) + [Processed(b, m)]
      ensures Grounded(cfg, origin, w, Span(lo, asked, TagFinalized(), floor, None), old(acts), acts)
      ensures tracker.View() == Process(cfg, old(tracker.View()), b, m).0
      ensures chain.Valid() && chain.Headers() == Recorded(old(chain.Headers()), chain.depth, RefOf(b))
      ensures chain.tip == TipMoved(old(chain.tip), RefOf(b))
      ensures book == old(book).Entered(b.number)
      ensures old(Mid(w)) && On(w.tree, w.canon, b.number, b.hash) ==> Mid(w)
    {
      hide *;
      Films();
      ghost var s0, a0, settled := tracker.View(), acts, Mid(w) && On(w.tree, w.canon, b.number, b.hash);
      ghost var b0, recorded0, tip0 := book, chain.recorded, chain.tip;
      if settled { MidParts(w); }
      m := JournalBlock(w, lo, q, b, floor);
      RecordBlock(w, b);
      BlockCounts(boot, a0, b, b0, tip0, m);
      FilmProcessed(boot, chain.depth, a0, recorded0, tip0, b0, Processed(b, m));
      Assemble();
      if settled {
        BlockPlaces(w, s0, tracker.View(), b, b0.top);
        EnteredTop(b0, b.number);
        MidNow(w);
      }
    }

    /** The tracker's side of it, journalled. */
    method JournalBlock(w: World, ghost lo: Asked, ghost q: nat, b: Block, ghost floor: nat) returns (ghost m: Moment)
      requires Valid() && WellScanned(b)
      requires ServedAt(w, Span(lo, asked, TagFinalized(), floor, None), q, b)
      modifies this`out, this`acts, tracker, tracker.txs.Values
      ensures tracker.Valid() && tracker.cfg == cfg && Inv(origin) && Told() && Inv(tracker.View())
      ensures fresh(tracker.txs.Values - old(tracker.txs.Values))
      ensures m.confirmations == DepthAt(chain.tip, b.number) && m.finalized == TagFinalized()
      ensures acts == old(acts) + [Processed(b, m)]
      ensures Grounded(cfg, origin, w, Span(lo, asked, TagFinalized(), floor, None), old(acts), acts)
      ensures tracker.View() == Process(cfg, old(tracker.View()), b, m).0 && PlacedBy(old(tracker.View()), tracker.View(), b)
    {
      hide *;
      Replays();
      ghost var s0, a0, evs := tracker.View(), acts, [];
      m, evs := FeedBlock(b);
      ProcessKeeps(cfg, s0, b, m);
      BlockActOk(cfg, s0, b, m);
      BlockPerforms(cfg, s0, b, m);
      Enter(Processed(b, m), s0, evs);
      BlockGrounded(cfg, origin, w, Span(lo, asked, TagFinalized(), floor, None), q, a0, Processed(b, m));
    }

    lemma Films()
      requires Valid()
      ensures chain.Valid() && FilmOf(boot, chain.depth, acts, chain.recorded, chain.tip, book) && BootOk(boot)
      ensures forall n :: Begun(n) <==> StartKnown(boot, acts) || book.start == n
    {
    }

    lemma Assemble()
      requires tracker.Valid() && chain.Valid() && tracker.cfg == cfg && Inv(origin) && BootOk(boot)
      requires Told() && Inv(tracker.View())
      requires FilmOf(boot, chain.depth, acts, chain.recorded, chain.tip, book)
      ensures Valid()
    {
    }

    lemma MidParts(w: World)
      requires WfTree(w.tree) && Mid(w)
      ensures chain.Valid() && TxsOn(w.tree, w.canon, tracker.View(), book.top)
      ensures HeadersOn(w.tree, w.canon, chain.Headers(), book.base, book.since)
    {
    }

    lemma MidNow(w: World)
      requires WfTree(w.tree) && chain.Valid() && TxsOn(w.tree, w.canon, tracker.View(), book.top)
      requires HeadersOn(w.tree, w.canon, chain.Headers(), book.base, book.since)
      ensures Mid(w)
    {
    }

    /** Files the processed block's header, and books it. */
    method RecordBlock(w: World, b: Block)
      requires chain.Valid() && WfTree(w.tree) && b.hash != ZERO_HASH
      modifies chain`tip, chain`recorded, chain.refs, this`book
      ensures chain.Valid() && chain.recorded == old(chain.recorded) + [RefOf(b)]
      ensures chain.Headers() == Recorded(old(chain.Headers()), chain.depth, RefOf(b))
      ensures chain.tip == TipMoved(old(chain.tip), RefOf(b))
      ensures book == old(book).Entered(b.number)
      ensures HeadersOn(w.tree, w.canon, old(chain.Headers()), old(book).base, old(book).since) && On(w.tree, w.canon, b.number, b.hash)
              ==> HeadersOn(w.tree, w.canon, chain.Headers(), book.base, book.since)
    {
      hide RecordedAll, ChainState.Keeps;
      chain.Record(RefOf(b));
      book := book.Entered(b.number);
      if HeadersOn(w.tree, w.canon, old(chain.Headers()), book.base, old(book).since) && On(w.tree, w.canon, b.number, b.hash) {
        RecordPlaces(w, old(chain.Headers()), chain.depth, b, book.base, old(book).since);
      }
    }

    method FeedBlock(b: Block) returns (ghost m: Moment, ghost evs: seq<Event>)
      requires tracker.Valid() && tracker.cfg == cfg
      modifies this`out, tracker, tracker.txs.Values
      ensures tracker.Valid() && fresh(tracker.txs.Values - old(tracker.txs.Values))
      ensures m.confirmations == DepthAt(chain.tip, b.number) && m.finalized == TagFinalized()
      ensures (tracker.View(), evs) == Process(cfg, old(tracker.View()), b, m) && out == old(out) + evs
    {
      hide AfterMined, AfterResolved, AfterConsumed, Scanned, Tracker.View;
      var conf, fin := ConfirmationsFor(b.number), TagFinalized();
      var now: Time := *;
      m := Moment(conf, fin, now);
      ghost var s0 := tracker.View();
      var covered := FeedMined(b, conf, fin, now);
      ghost var s1 := tracker.View();
      FeedUnmatched(b, covered, conf, fin, now);
      ghost var s2 := tracker.View();
      FeedNonces(b);
      evs := AfterMined(cfg, s0, b, |b.mined|, m).1 + AfterResolved(cfg, s1, b, |b.txs|, m).1 + AfterConsumed(s2, b, |b.txs|).1;
      assert out == old(out) + evs;
    }

    /** The transactions the scan matched. */
    method FeedMined(b: Block, conf: nat, fin: nat, now: Time) returns (covered: set<Hash>)
      requires tracker.Valid() && tracker.cfg == cfg
      modifies this`out, tracker, tracker.txs.Values
      ensures tracker.Valid() && fresh(tracker.txs.Values - old(tracker.txs.Values))
      ensures forall h :: h in covered <==> Scanned(b, h)
      ensures (tracker.View(), out)
           == var r := AfterMined(cfg, old(tracker.View()), b, |b.mined|, Moment(conf, fin, now)); (r.0, old(out) + r.1)
    {
      hide OnMined, Tracker.View;
      covered := {};
      ghost var s0, m := tracker.View(), Moment(conf, fin, now);
      assert out == old(out) + AfterMined(cfg, s0, b, 0, m).1;
      for i := 0 to |b.mined|
        invariant tracker.Valid() && fresh(tracker.txs.Values - old(tracker.txs.Values))
        invariant forall h :: h in covered <==> exists j :: 0 <= j < i && b.mined[j].hash == h
        invariant (tracker.View(), out) == var r := AfterMined(cfg, s0, b, i, m); (r.0, old(out) + r.1)
      {
        var tx := b.mined[i];
        covered := covered + {tx.hash};
        var evs := tracker.OnMined(tx.hash, b.hash, b.number, tx.transfers, tx.failed, conf, fin, now);
        EmitAll(evs);
        assert out == old(out) + (AfterMined(cfg, s0, b, i, m).1 + evs);
      }
    }

    /** Tracked pending transactions of the block that the scan did not cover. */
    method FeedUnmatched(b: Block, covered: set<Hash>, conf: nat, fin: nat, now: Time)
      requires tracker.Valid() && tracker.cfg == cfg
      requires forall h :: h in covered <==> Scanned(b, h)
      modifies this`out, tracker, tracker.txs.Values
      ensures tracker.Valid() && fresh(tracker.txs.Values - old(tracker.txs.Values))
      ensures (tracker.View(), out)
           == var r := AfterResolved(cfg, old(tracker.View()), b, |b.txs|, Moment(conf, fin, now)); (r.0, old(out) + r.1)
    {
      hide ResolveOne, Scanned, Tracker.View;
      ghost var s0, m := tracker.View(), Moment(conf, fin, now);
      assert out == old(out) + AfterResolved(cfg, s0, b, 0, m).1;
      for i := 0 to |b.txs|
        invariant tracker.Valid() && fresh(tracker.txs.Values - old(tracker.txs.Values))
        invariant (tracker.View(), out) == var r := AfterResolved(cfg, s0, b, i, m); (r.0, old(out) + r.1)
      {
        ghost var s := tracker.View();
        FeedOne(b, covered, b.txs[i].hash, conf, fin, now);
        assert out == old(out) + (AfterResolved(cfg, s0, b, i, m).1 + ResolveOne(cfg, s, b, b.txs[i].hash, m).1);
      }
    }

    method FeedOne(b: Block, covered: set<Hash>, h: Hash, conf: nat, fin: nat, now: Time)
      requires tracker.Valid() && tracker.cfg == cfg
      requires forall h :: h in covered <==> Scanned(b, h)
      modifies this`out, tracker, tracker.txs.Values
      ensures tracker.Valid() && fresh(tracker.txs.Values - old(tracker.txs.Values))
      ensures (tracker.View(), out)
           == var r := ResolveOne(cfg, old(tracker.View()), b, h, Moment(conf, fin, now)); (r.0, old(out) + r.1)
    {
      hide OnMined, Scanned, Tracker.View;
      var pending := tracker.IsPending(h);
      if h in covered || !pending || h !in b.receipts {
        assert out == old(out) + [];
        return;
      }
      var evs := tracker.OnMined(h, b.hash, b.number, [], b.receipts[h], conf, fin, now);
      EmitAll(evs);
    }

    /** Every mined transaction consumes its nonce slot. */
    method FeedNonces(b: Block)
      requires tracker.Valid()
      modifies this`out, tracker, tracker.txs.Values
      ensures tracker.Valid() && fresh(tracker.txs.Values - old(tracker.txs.Values))
      ensures (tracker.View(), out)
           == var r := AfterConsumed(old(tracker.View()), b, |b.txs|); (r.0, old(out) + r.1)
    {
      hide OnNonceUsed, Tracker.View;
      ghost var s0 := tracker.View();
      assert out == old(out) + AfterConsumed(s0, b, 0).1;
      for i := 0 to |b.txs|
        invariant tracker.Valid() && tracker.txs.Values <= old(tracker.txs.Values)
        invariant (tracker.View(), out) == var r := AfterConsumed(s0, b, i); (r.0, old(out) + r.1)
      {
        var tx := b.txs[i];
        var evs := tracker.OnNonceUsed(tx.sender, tx.nonce, tx.hash);
        EmitAll(evs);
        assert out == old(out) + (AfterConsumed(s0, b, i).1 + evs);
      }
    }

    // -------------------------------------------------------------- scanning

    /** The tip is a block of the world's chain. */
    ghost predicate TipOn(w: World)
      reads chain
      requires WfTree(w.tree)
    {
      OnChain(w, chain.tip)
    }

    method AskBlock(w: World, n: nat) returns (d: Option<Block>)
      modifies this`asked
      ensures asked == old(asked) + [ForBlock(n)] && d == w.block(|old(asked)|, n)
    {
      d := w.block(|asked|, n);
      asked := asked + [ForBlock(n)];
    }

    method AskAnnounced(w: World) returns (d: Option<Block>)
      modifies this`asked
      ensures asked == old(asked) + [ForHead] && d == w.announced(|old(asked)|)
    {
      d := w.announced(|asked|);
      asked := asked + [ForHead];
    }

    /** Processes a block some request since `q` was answered with. */
    method ScanServed(w: World, ghost q: Asked, b: Block, ghost floor: nat) returns (ghost m: Moment)
      requires Valid() && WfTree(w.tree) && WellScanned(b) && b.hash != ZERO_HASH && Begun(b.number)
      requires (q + [ForBlock(b.number)] <= asked && w.block(|q|, b.number) == Some(b)) || (q + [ForHead] <= asked && w.announced(|q|) == Some(b))
      modifies this`out, this`acts, this`book, tracker, tracker.txs.Values, chain, chain.refs
      ensures Valid() && fresh(tracker.txs.Values - old(tracker.txs.Values))
      ensures acts == old(acts) + [Processed(b, m)] && Did(old(acts), acts, [OfBlock(b.number)]) && m.finalized == TagFinalized()
      ensures Grounded(cfg, origin, w, Span(q, asked, TagFinalized(), floor, None), old(acts), acts)
      ensures Went(w, old(acts), q, TagFinalized(), floor, None)
      ensures b.number in Buffer() && book == old(book).Entered(b.number)
      ensures chain.tip.Some? && chain.tip.value.number == MaxTip(old(chain.tip), b.number)
      ensures chain.tip.value.number == b.number ==> chain.tip.value.hash == b.hash
      ensures chain.tip.value.number > b.number ==> chain.tip == old(chain.tip)
      ensures old(Mid(w)) && On(w.tree, w.canon, b.number, b.hash) ==> Mid(w)
    {
      hide *;
      ServedNow(w, q, b, floor);
      Films();
      ghost var a0, buf0, tip0 := acts, chain.Headers(), chain.tip;
      m := ProcessBlock(w, q, |q|, b, floor);
      WentFrom(w, a0, q, floor);
      DidBlock(a0, b, m);
      RecordedHas(buf0, chain.depth, RefOf(b));
      BufferNow();
      TipTaken(tip0, b);
    }

    lemma BufferNow()
      requires chain.Valid()
      ensures Buffer() == chain.Headers()
    {
    }

    /** Fetches and processes one block by number; a failed request changes nothing else. */
    method ScanOne(w: World, n: nat, ghost floor: nat) returns (ok: bool)
      requires Valid() && WorldOk(w) && chain.tip.Some?
      modifies Footprint()
      ensures Valid() && fresh(Footprint() - old(Footprint()))
      ensures unchanged(`lastProcessed, `finalizedNum, `restoredPending)
      ensures asked == old(asked) + [ForBlock(n)] && (ok <==> w.block(|old(asked)|, n).Some?)
      ensures Went(w, old(acts), old(asked), old(TagFinalized()), floor, None)
      ensures !ok ==> chain.tip == old(chain.tip) && book == old(book) && acts == old(acts)
      ensures ok ==> Did(old(acts), acts, [OfBlock(n)])
      ensures ok ==> book == old(book).Entered(n) && n in Buffer()
      ensures ok ==> chain.tip.Some? && chain.tip.value.number == MaxTip(old(chain.tip), n)
      ensures w.steady && old(Mid(w)) ==> Mid(w)
      ensures w.steady && ok && MaxTip(old(chain.tip), n) == n ==> TipOn(w)
      ensures old(TipOn(w)) && chain.tip == old(chain.tip) ==> TipOn(w)
    {
      hide Valid, Run, Process, TxsOn, HeadersOn, On, WorldOk, Went, Mid, Recorded, Tracker.View, Tracker.Valid, Grounded,
           StartKnown, Buffer, MaxTip, Book.Entered, RecordedAll, FilmOf, Did;
      WorldTree(w);
      ok := false;
      ghost var q := asked;
      var d := AskBlock(w, n);
      if d.Some? {
        WorldBlock(w, |q|, n);
        ChainNow();
        TipBegun();
        ghost var m := ScanServed(w, q, d.value, floor);
        ok := true;
      } else {
        WentNothing(w, q, floor);
      }
    }

    lemma ChainNow()
      requires Valid()
      ensures chain.Valid() && tracker.Valid()
    {
    }

    lemma ServedNow(w: World, q: Asked, b: Block, floor: nat)
      requires (q + [ForBlock(b.number)] <= asked && w.block(|q|, b.number) == Some(b)) || (q + [ForHead] <= asked && w.announced(|q|) == Some(b))
      ensures ServedAt(w, Span(q, asked, TagFinalized(), floor, None), |q|, b)
    {
      if q + [ForHead] <= asked { assert asked[|q|] == ForHead; }
      if q + [ForBlock(b.number)] <= asked { assert asked[|q|] == ForBlock(b.number); }
    }

    lemma WentNothing(w: World, q: Asked, floor: nat)
      requires q <= asked
      ensures Went(w, acts, q, TagFinalized(), floor, None)
    {
    }

    lemma WentFrom(w: World, a: seq<Act>, q: Asked, floor: nat)
      requires Grounded(cfg, origin, w, Span(q, asked, TagFinalized(), floor, None), a, acts)
      ensures Went(w, a, q, TagFinalized(), floor, None)
    {
    }

    /**
     Processes the blocks [from, to] ascending, up to `done` exclusively; all of them unless a fetch fails.
     This is a live gap, and also the replay of a reorg.
     */
    method ProcessUpward(w: World, from: nat, to: nat, ghost floor: nat) returns (ok: bool, ghost done: nat)
      requires Valid() && WorldOk(w) && from <= to + 1 && chain.tip.Some?
      modifies Footprint()
      ensures Valid() && fresh(Footprint() - old(Footprint()))
      ensures unchanged(`lastProcessed, `finalizedNum, `restoredPending)
      ensures Went(w, old(acts), old(asked), old(TagFinalized()), floor, None)
      ensures from <= done <= to + 1 && (ok <==> done == to + 1) && old(asked) <= asked
      ensures ok ==> |asked| == |old(asked)| + (to + 1 - from)
      ensures !ok ==> old(asked) < asked && asked[|asked| - 1] == ForBlock(done) && w.block(|asked| - 1, done).None?
      ensures book == old(book).EnteredUpward(from, done) && Did(old(acts), acts, BlockDeeds(from, done))
      ensures done == from ==> chain.tip == old(chain.tip)
      ensures done > from ==> chain.tip.Some? && chain.tip.value.number == MaxTip(old(chain.tip), done - 1)
      ensures OnlyBlocksAsked(old(asked), asked)
      ensures ok && done > from ==> to in Buffer()
      ensures w.steady && old(Mid(w)) ==> Mid(w)
      ensures w.steady && done > from && MaxTip(old(chain.tip), from) == from ==> TipOn(w)
    {
      hide Valid, Mid, TipOn, WorldOk, Went, Buffer, Tracker.View, Tracker.Valid, Run, StartKnown, FilmOf, Inv, Lawful, WfTree,
           Did, BlockDeeds;
      WorldTree(w);
      done := from;
      var n := from;
      ok := true;
      DidNothing(acts);
      NoBlocks(from, from);
      WentNowhere(w, floor, None);
      while n <= to
        invariant ok && from <= n == done <= to + 1 && old(asked) <= asked && |asked| == |old(asked)| + (n - from)
        invariant chain.tip.Some? && OnlyBlocksAsked(old(asked), asked)
        invariant Valid() && fresh(Footprint() - old(Footprint()))
        invariant unchanged(`lastProcessed, `finalizedNum, `restoredPending)
        invariant Went(w, old(acts), old(asked), old(TagFinalized()), floor, None)
        invariant book == old(book).EnteredUpward(from, done) && Did(old(acts), acts, BlockDeeds(from, done))
        invariant done == from ==> chain.tip == old(chain.tip)
        invariant done > from ==> chain.tip.Some? && chain.tip.value.number == MaxTip(old(chain.tip), done - 1)
        invariant done > from ==> n - 1 in Buffer()
        invariant w.steady && old(Mid(w)) ==> Mid(w)
        invariant w.steady && done > from && MaxTip(old(chain.tip), from) == from ==> TipOn(w)
      {
        ghost var a1, q1, f1 := acts, asked, TagFinalized();
        WentParts(w, old(acts), old(asked), old(TagFinalized()), floor, None);
        ok := ScanOne(w, n, floor);
        WentOn(w, old(acts), old(asked), old(TagFinalized()), floor, None, a1, q1, f1, floor);
        if !ok { return; }
        DidThen(old(acts), a1, acts, BlockDeeds(from, n), [OfBlock(n)]);
        BlockDeedsGrow(from, n);
        n := n + 1;
        done := n;
      }
    }

    // -------------------------------------------------------------- catching up

    /** Everything the subscriptions delivered while the scan was busy: notices, and heads above `highest`. */
    method DrainLive(w: World, highest: nat, ghost floor: nat) returns (ok: bool, newest: nat)
      requires Valid() && WorldOk(w) && chain.tip.Some? && chain.tip.value.number == highest
      modifies Footprint()
      ensures Valid() && fresh(Footprint() - old(Footprint()))
      ensures unchanged(`lastProcessed, `finalizedNum, `restoredPending)
      ensures Went(w, old(acts), old(asked), old(TagFinalized()), floor, None) && old(asked) <= asked
      ensures !ok ==> Faulted(w, old(asked), asked, highest)
      ensures OnlyLive(old(acts), acts)
      ensures ok ==> Did(old(acts), acts, DrainedDeeds(w, |old(asked)|, w.waiting(|old(asked)|), highest))
      ensures chain.tip.Some? && chain.tip.value.number >= highest && newest >= highest
      ensures newest == highest ==> chain.tip == old(chain.tip) || !ok
      ensures old(book).scanned <= book.scanned && book.start == old(book).start
      ensures ok ==> chain.tip.value.number == newest && book == old(book).EnteredUpward(highest + 1, newest + 1)
      ensures newest == highest || Heard(w, old(asked), asked, newest)
      ensures ok ==> NoHeadMissed(w, old(asked), asked, newest)
      ensures ok ==> (|asked|, newest) == Drained(w, |old(asked)|, w.waiting(|old(asked)|), highest)
      ensures w.steady && old(Mid(w)) && ok ==> Mid(w)
      ensures w.steady && old(TipOn(w)) && ok ==> TipOn(w)
    {
      hide Valid, TipOn, Mid, Book.EnteredUpward, WorldOk, Went, Tracker.View, Tracker.Valid, Run, Faulted, Heard, Drained,
           LiveOne, DrainedDeeds, LiveDeeds, OnlyLive, Did, NoHeadMissed;
      WorldTree(w);
      NothingUp(book, highest + 1);
      WentNowhere(w, floor, None);
      DidNothing(acts);
      StillLive(acts);
      NoneYet(w, asked, highest);
      newest := highest;
      ok := true;
      var waiting := w.waiting(|asked|);
      DrainedStep(w, |asked|, waiting, newest);
      ghost var deeds, total := [], DrainedDeeds(w, |asked|, waiting, newest);
      assert deeds + total == total;
      while waiting > 0
        invariant Valid() && fresh(Footprint() - old(Footprint())) && old(asked) <= asked
        invariant unchanged(`lastProcessed, `finalizedNum, `restoredPending)
        invariant Went(w, old(acts), old(asked), old(TagFinalized()), floor, None)
        invariant newest >= highest && chain.tip.Some? && chain.tip.value.number == newest
        invariant newest == highest ==> chain.tip == old(chain.tip)
        invariant ok && book == old(book).EnteredUpward(highest + 1, newest + 1)
        invariant old(book).scanned <= book.scanned && book.start == old(book).start
        invariant NoHeadMissed(w, old(asked), asked, newest)
        invariant newest == highest || Heard(w, old(asked), asked, newest)
        invariant Drained(w, |old(asked)|, w.waiting(|old(asked)|), highest) == Drained(w, |asked|, waiting, newest)
        invariant OnlyLive(old(acts), acts) && Did(old(acts), acts, deeds)
        invariant deeds + DrainedDeeds(w, |asked|, waiting, newest) == total
        invariant w.steady && old(Mid(w)) ==> Mid(w)
        invariant w.steady && old(TipOn(w)) ==> TipOn(w)
      {
        DrainedStep(w, |asked|, waiting, newest);
        DeedsStep(w, |asked|, waiting, newest, deeds);
        waiting := waiting - 1;
        ghost var reached, a1, q1, f1 := newest, acts, asked, TagFinalized();
        WentParts(w, old(acts), old(asked), old(TagFinalized()), floor, None);
        ok, newest := LiveStep(w, newest, floor);
        OnlyLiveThen(old(acts), a1, acts);
        WentOn(w, old(acts), old(asked), old(TagFinalized()), floor, None, a1, q1, f1, floor);
        StillHeard(w, highest, reached, newest, old(asked), q1, asked);
        NoneMissed(w, old(asked), q1, asked, reached, newest);
        if !ok {
          FaultedWider(w, q1, asked, reached, old(asked), highest);
          return;
        }
        DidThen(old(acts), a1, acts, deeds, LiveDeeds(w, |q1|, reached));
        deeds := deeds + LiveDeeds(w, |q1|, reached);
        UpwardJoins(old(book), highest + 1, reached + 1, newest + 1);
      }
      DrainedStep(w, |asked|, 0, newest);
      DeedsStep(w, |asked|, 0, newest, deeds);
    }

    /** One delivery: a notice, or a head; heads at or below `newest` are stale announcements. */
    method LiveStep(w: World, newest: nat, ghost floor: nat) returns (ok: bool, newest': nat)
      requires Valid() && WorldOk(w) && chain.tip.Some? && chain.tip.value.number == newest
      modifies Footprint()
      ensures Valid() && fresh(Footprint() - old(Footprint()))
      ensures unchanged(`lastProcessed, `finalizedNum, `restoredPending) && old(asked) <= asked
      ensures Went(w, old(acts), old(asked), old(TagFinalized()), floor, None)
      ensures !ok ==> Faulted(w, old(asked), asked, newest)
      ensures OnlyLive(old(acts), acts) && (ok ==> Did(old(acts), acts, LiveDeeds(w, |old(asked)|, newest)))
      ensures chain.tip.Some? && chain.tip.value.number >= newest && newest' >= newest
      ensures newest' == newest ==> chain.tip == old(chain.tip)
      ensures old(book).scanned <= book.scanned && book.start == old(book).start
      ensures ok ==> chain.tip.value.number == newest' && book == old(book).EnteredUpward(newest + 1, newest' + 1)
      ensures NoHeadMissed(w, old(asked), asked, newest')
      ensures newest' == newest || Heard(w, old(asked), asked, newest')
      ensures ok ==> (|asked|, newest') == LiveOne(w, |old(asked)|, newest)
      ensures w.steady && old(Mid(w)) && ok ==> Mid(w)
      ensures w.steady && old(TipOn(w)) && ok ==> TipOn(w)
    {
      hide Valid, TipOn, On, Mid, WorldOk, Went, Tracker.View, Tracker.Valid, Run, Faulted, Heard, Book.EnteredUpward, OnlyLive,
           Did, BlockDeeds;
      WorldTree(w);
      WorldDelivery(w, |asked|);
      NothingUp(book, newest + 1);
      ghost var q := asked;
      ok, newest' := true, newest;
      var d := w.delivery(|asked|);
      asked := asked + [ForDelivery];
      match d {
        case Notice(matches) => OnNotice(w, q, matches, floor);
        case NewHead(num) =>
          if num > newest {
            ok := LiveHead(w, q, num, newest, floor);
            newest' := num;
            HeardNow(w, q, asked, num);
          } else {
            WentNothing(w, q, floor);
            DidNothing(acts);
            StillLive(acts);
          }
      }
    }

    /** A head above `newest` delivered by request `q`: everything up to it is processed. */
    method LiveHead(w: World, ghost q: Asked, num: nat, newest: nat, ghost floor: nat) returns (ok: bool)
      requires Valid() && WorldOk(w) && chain.tip.Some? && chain.tip.value.number == newest < num
      requires q + [ForDelivery] <= asked && w.delivery(|q|) == NewHead(num)
      modifies Footprint()
      ensures Valid() && fresh(Footprint() - old(Footprint()))
      ensures unchanged(`lastProcessed, `finalizedNum, `restoredPending) && old(asked) <= asked
      ensures Went(w, old(acts), q, old(TagFinalized()), floor, None)
      ensures !ok ==> Faulted(w, q, asked, newest)
      ensures OnlyLive(old(acts), acts) && (ok ==> Did(old(acts), acts, BlockDeeds(newest + 1, num + 1)))
      ensures chain.tip.Some? && chain.tip.value.number >= newest && OnlyBlocksAsked(old(asked), asked)
      ensures old(book).scanned <= book.scanned && book.start == old(book).start
      ensures ok ==> chain.tip.value.number == num && book == old(book).EnteredUpward(newest + 1, num + 1)
      ensures ok ==> |asked| == |old(asked)| + (num - newest)
      ensures w.steady && old(Mid(w)) && ok ==> Mid(w)
      ensures w.steady && ok ==> TipOn(w)
    {
      hide Valid, TipOn, On, Mid, WorldOk, Went, Tracker.View, Tracker.Valid, Run, Faulted, Book.EnteredUpward, OnlyLive, Did,
           BlockDeeds;
      WorldTree(w);
      ghost var b0, a1, q1, f1 := book, acts, asked, TagFinalized();
      ghost var done;
      ok, done := ProcessUpward(w, newest + 1, num, floor);
      BlocksAreLive(a1, acts, newest + 1, done);
      WentLater(w, a1, q, q1, f1, floor);
      UpwardBooks(b0, newest + 1, done);
      if !ok { LiveFaulted(w, q, asked, q1, num, newest, done); }
    }

    /** The same, counted from an earlier request. */
    lemma WentLater(w: World, a: seq<Act>, q: Asked, q1: Asked, fin: nat, floor: nat)
      requires Went(w, a, q1, fin, floor, None) && q <= q1
      ensures Went(w, a, q, fin, floor, None)
    {
      hide Run, GroundedAt, Grounded;
      WentParts(w, a, q1, fin, floor, None);
      GroundedWiden(cfg, origin, w, Span(q1, asked, fin, floor, None), Span(q, asked, fin, floor, None), a, acts);
    }

    /** A mempool notice moves no inclusion. */
    method OnNotice(w: World, ghost q: Asked, matches: seq<Match>, ghost floor: nat)
      requires Valid() && WfTree(w.tree) && q + [ForDelivery] <= asked
      requires w.delivery(|q|) == Notice(matches) && DeliveryOk(w.delivery(|q|))
      modifies this`out, this`acts, tracker, tracker.txs.Values
      ensures Valid() && fresh(tracker.txs.Values - old(tracker.txs.Values))
      ensures Went(w, old(acts), q, TagFinalized(), floor, None)
      ensures Did(old(acts), acts, [OfNotice(matches)]) && OnlyLive(old(acts), acts)
      ensures old(Mid(w)) ==> Mid(w)
    {
      hide Valid, Run, On, HeadersOn, Tracker.View, Tracker.Valid, Grounded, Lifecycle.OnPending;
      ghost var s0, a0 := tracker.View(), acts;
      var now := TakeNotice(matches);
      DidOne(a0, acts[|a0|]);
      NoticeIsLive(a0, matches, now, TagFinalized());
      NoticeGrounded(cfg, origin, w, Span(q, asked, TagFinalized(), floor, None), a0, |q|, acts[|a0|]);
      PendingMovesNothing(s0, matches, now);
    }

    /**
     Backfills [from, head] newest first: the head at once, then downwards, with live traffic drained and
     lifecycles updated between blocks. On success every number from `from` to the highest block reached was
     processed exactly once; only then does `lastProcessed` move. No inclusion below `from` is confirmed or
     demoted.
     */
    method CatchUpScan(w: World, from: nat) returns (ok: bool, highest: nat, ghost trail: Trail)
      requires Valid() && WorldOk(w) && 0 < from <= w.head.number && (chain.tip.Some? || boot.resumed.Some?)
      requires chain.tip.Some? ==> chain.tip.value.number <= w.head.number
      modifies Footprint()
      ensures Valid() && fresh(Footprint() - old(Footprint()))
      ensures Went(w, old(acts), old(asked), old(TagFinalized()), from, None)
      ensures old(book).scanned <= book.scanned && book.start == old(book).start
      ensures !ok ==> lastProcessed == old(lastProcessed) && Stopped(cfg, origin, w, old(asked), old(acts), from, Now(), trail)
      ensures !ok ==> chain.tip == old(chain.tip) || (chain.tip.Some? && chain.tip.value.number >= w.head.number)
      ensures ok ==> lastProcessed == highest >= w.head.number && chain.tip.Some? && chain.tip.value.number == highest
      ensures ok && highest == w.head.number ==> chain.tip.value.hash == w.head.hash
      ensures ok && highest > w.head.number ==> Heard(w, old(asked), asked, highest)
      ensures ok ==> forall n :: from <= n <= highest ==> n in book.scanned && n in book.since
      ensures ok ==> old(book).log <= book.log && ExactlyOnce(book.log[|old(book).log|..], from, highest)
      ensures ok ==> book.base == old(book).base && book.top == MaxNat(old(book).top, highest)
      ensures ok && old(lastProcessed) == from - 1 ==> Trailed(cfg, origin, w, old(asked), old(acts), from - 1, Now(), trail)
      ensures ok && w.steady && old(Mid(w)) && old(book).top <= w.head.number ==> Mid(w) && TipOn(w)
    {
      hide Valid, Mid, TipOn, On, CaughtUp, ExactlyOnce, WorldOk, Went, Tracker.View, Tracker.Valid, Run, Faulted, Heard, Buffer,
           Canonical, Inv, Shape, Told, Filmed, Book.Entered, WfTree, Now, Trailed, BackedDown, StartKnown, HeadFirst, Stopped;
      ok, highest, trail := ScanBacklog(w, from);
      if ok {
        ghost var before := Now();
        lastProcessed := highest;
        if old(lastProcessed) == from - 1 {
          LastMoved(before);
          TrailDone(cfg, origin, w, old(asked), old(acts), from - 1, before, trail);
        }
      }
    }

    /** The scan itself: the announced block, then the backlog below it. */
    method ScanBacklog(w: World, from: nat) returns (ok: bool, highest: nat, ghost trail: Trail)
      requires Valid() && WorldOk(w) && 0 < from <= w.head.number && (chain.tip.Some? || boot.resumed.Some?)
      requires chain.tip.Some? ==> chain.tip.value.number <= w.head.number
      modifies Footprint()
      ensures Valid() && fresh(Footprint() - old(Footprint()))
      ensures lastProcessed == old(lastProcessed)
      ensures Went(w, old(acts), old(asked), old(TagFinalized()), from, None)
      ensures old(book).scanned <= book.scanned && book.start == old(book).start
      ensures !ok ==> Stopped(cfg, origin, w, old(asked), old(acts), from, Now(), trail)
      ensures !ok ==> chain.tip == old(chain.tip) || (chain.tip.Some? && chain.tip.value.number >= w.head.number)
      ensures ok ==> highest >= w.head.number && chain.tip.Some? && chain.tip.value.number == highest
      ensures ok && highest == w.head.number ==> chain.tip.value.hash == w.head.hash
      ensures ok && highest > w.head.number ==> Heard(w, old(asked), asked, highest)
      ensures ok ==> forall n :: from <= n <= highest ==> n in book.scanned && n in book.since
      ensures ok ==> old(book).log <= book.log && ExactlyOnce(book.log[|old(book).log|..], from, highest)
      ensures ok ==> book.base == old(book).base && book.top == MaxNat(old(book).top, highest)
      ensures ok ==> HeadFirst(w, old(asked), old(acts), trail.begun)
      ensures ok ==> |trail.legs| == w.head.number - from && BackedDown(cfg, origin, w, trail.legs, trail.begun, Now(), w.head.number)
      ensures ok && w.steady && old(Mid(w)) && old(book).top <= w.head.number ==> Mid(w) && TipOn(w)
    {
      hide Valid, Mid, TipOn, On, CaughtUp, ExactlyOnce, WorldOk, Went, Tracker.View, Tracker.Valid, Run, Faulted, Heard, Buffer,
           Canonical, Inv, Shape, Told, Filmed, Book.Entered, WfTree, Now, Trailed, BackedDown, StartKnown, HeadFirst, StoppedIn;
      WorldTree(w);
      WorldHead(w);
      TipBegun();
      ghost var m, broken := Moment(1, 0, 0), Leg(Now(), Now(), Moment(1, 0, 0), Now(), NoPass());
      trail := Trail(Now(), [], broken);
      ok, m := ScanAnnounced(w, from);
      highest := w.head.number;
      if !ok {
        return;
      }
      ghost var b0, a1, q1, f1 := old(book), acts, asked, TagFinalized();
      WentParts(w, old(acts), old(asked), old(TagFinalized()), from, None);
      CaughtUpStart(b0, book, from, w.head.number);
      CaughtUpFacts(b0, book, w.head.number, highest);
      ghost var begun, legs := Now(), [];
      HeadWasFirst(w, old(asked), old(acts), m, begun);
      ok, highest, legs, broken := Backfill(w, from, b0);
      trail := Trail(begun, legs, broken);
      WentOn(w, old(acts), old(asked), old(TagFinalized()), from, None, a1, q1, f1, from);
      if !ok {
        return;
      }
      StillHeard(w, w.head.number, w.head.number, highest, old(asked), q1, asked);
      CaughtUpFacts(b0, book, from, highest);
    }

    /** The backlog below the announced head, newest first. `b0` are the books before the catch-up. */
    method Backfill(w: World, from: nat, ghost b0: Book) returns (ok: bool, highest: nat, ghost legs: seq<Leg>, ghost broken: Leg)
      requires Valid() && WorldOk(w) && from <= w.head.number
      requires chain.tip.Some? && chain.tip.value.number == w.head.number && CaughtUp(b0, book, w.head.number, w.head.number)
      modifies Footprint()
      ensures Valid() && fresh(Footprint() - old(Footprint()))
      ensures lastProcessed == old(lastProcessed) && old(asked) <= asked
      ensures Went(w, old(acts), old(asked), old(TagFinalized()), from, None)
      ensures !ok ==> StoppedIn(cfg, origin, w, from, Now(), Trail(old(Now()), legs, broken))
      ensures chain.tip.Some? && chain.tip.value.number >= w.head.number && highest >= w.head.number
      ensures ok && highest == w.head.number ==> chain.tip == old(chain.tip)
      ensures b0.scanned <= book.scanned && book.start == b0.start
      ensures ok ==> chain.tip.value.number == highest && CaughtUp(b0, book, from, highest)
      ensures highest == w.head.number || Heard(w, old(asked), asked, highest)
      ensures ok ==> |legs| == w.head.number - from && BackedDown(cfg, origin, w, legs, old(Now()), Now(), w.head.number)
      ensures ok && w.steady && old(Mid(w)) && old(TipOn(w)) ==> Mid(w) && TipOn(w)
    {
      hide Valid, Mid, TipOn, On, CaughtUp, ExactlyOnce, WorldOk, Went, Tracker.View, Tracker.Valid, Run, Faulted, Heard, Now,
           BackedDown, LegRun, LegStopped;
      WorldTree(w);
      ok, highest, legs := true, w.head.number, [];
      broken := Leg(Now(), Now(), Moment(1, 0, 0), Now(), NoPass());
      NotBacked(cfg, origin, w, Now(), w.head.number);
      var next := w.head.number;
      WentNowhere(w, from, None);
      while next > from
        invariant from <= next <= w.head.number <= highest && old(asked) <= asked
        invariant ok && Valid() && fresh(Footprint() - old(Footprint()))
        invariant lastProcessed == old(lastProcessed)
        invariant Went(w, old(acts), old(asked), old(TagFinalized()), from, None)
        invariant chain.tip.Some? && chain.tip.value.number == highest
        invariant highest == w.head.number ==> chain.tip == old(chain.tip)
        invariant CaughtUp(b0, book, next, highest)
        invariant |legs| == w.head.number - next && BackedDown(cfg, origin, w, legs, old(Now()), Now(), w.head.number)
        invariant highest == w.head.number || Heard(w, old(asked), asked, highest)
        invariant w.steady && old(Mid(w)) && old(TipOn(w)) ==> Mid(w) && TipOn(w)
      {
        ghost var book1, reached, a1, q1, f1 := book, highest, acts, asked, TagFinalized();
        WentParts(w, old(acts), old(asked), old(TagFinalized()), from, None);
        CaughtUpFacts(b0, book, next, highest);
        ghost var leg;
        ok, highest, leg := BackfillOne(w, next - 1, highest);
        WentOn(w, old(acts), old(asked), old(TagFinalized()), from, None, a1, q1, f1, next - 1);
        StillHeard(w, w.head.number, reached, highest, old(asked), q1, asked);
        if !ok {
          broken := leg;
          return;
        }
        BackedSnoc(cfg, origin, w, legs, old(Now()), leg, w.head.number);
        legs := legs + [leg];
        CaughtUpStep(b0, book1, book, next, reached, highest);
        next := next - 1;
      }
      CaughtUpFacts(b0, book, next, highest);
    }

    /** The announced head, fetched by its hash. */
    method ScanAnnounced(w: World, ghost floor: nat) returns (ok: bool, ghost m: Moment)
      requires Valid() && WorldOk(w) && Begun(w.head.number)
      modifies Footprint()
      ensures Valid() && fresh(Footprint() - old(Footprint()))
      ensures unchanged(`lastProcessed, `finalizedNum, `restoredPending)
      ensures asked == old(asked) + [ForHead] && (ok <==> w.announced(|old(asked)|).Some?)
      ensures Went(w, old(acts), old(asked), old(TagFinalized()), floor, None)
      ensures !ok ==> chain.tip == old(chain.tip) && book == old(book) && acts == old(acts)
      ensures !ok ==> tracker.View() == old(tracker.View()) && Buffer() == old(Buffer())
      ensures ok ==> acts == old(acts) + [Processed(w.announced(|old(asked)|).value, m)]
      ensures ok ==> book == old(book).Entered(w.head.number) && w.head.number in Buffer()
      ensures ok ==> chain.tip.Some? && chain.tip.value.number == MaxTip(old(chain.tip), w.head.number)
      ensures ok && MaxTip(old(chain.tip), w.head.number) == w.head.number ==> chain.tip.value.hash == w.head.hash
      ensures On(w.tree, w.canon, w.head.number, w.head.hash) && old(Mid(w)) ==> Mid(w)
      ensures On(w.tree, w.canon, w.head.number, w.head.hash) && ok && MaxTip(old(chain.tip), w.head.number) == w.head.number ==>
        TipOn(w)
    {
      hide Valid, Run, Process, TxsOn, HeadersOn, On, WorldOk, Went, Mid, Recorded, Tracker.View, Tracker.Valid, Grounded,
           StartKnown, Buffer, MaxTip, Book.Entered, RecordedAll, FilmOf, Did;
      WorldTree(w);
      WorldHead(w);
      ok, m := false, Moment(1, 0, 0);
      ghost var q := asked;
      var d := AskAnnounced(w);
      if d.Some? {
        WorldAnnounced(w, |q|);
        ChainNow();
        m := ScanServed(w, q, d.value, floor);
        ok := true;
      } else {
        WentNothing(w, q, floor);
      }
    }

    /** One backfill block: fetched, then live traffic, then processed, then the lifecycles. */
    method BackfillOne(w: World, n: nat, highest: nat) returns (ok: bool, highest': nat, ghost leg: Leg)
      requires Valid() && WorldOk(w) && n < highest <= book.top && n < w.head.number <= highest
      requires chain.tip.Some? && chain.tip.value.number == highest
      modifies Footprint()
      ensures Valid() && fresh(Footprint() - old(Footprint()))
      ensures lastProcessed == old(lastProcessed) && old(asked) <= asked
      ensures Went(w, old(acts), old(asked), old(TagFinalized()), n, None)
      ensures chain.tip.Some? && chain.tip.value.number >= highest && highest' >= highest
      ensures ok && highest' == highest ==> chain.tip == old(chain.tip)
      ensures old(book).scanned <= book.scanned && book.start == old(book).start
      ensures ok ==> chain.tip.value.number == highest'
                     && book == old(book).EnteredUpward(highest + 1, highest' + 1).Entered(n)
      ensures leg.before == old(Now()) && leg.after == Now()
      ensures if ok then LegRun(cfg, origin, w, n, leg, true) else LegStopped(cfg, origin, w, n, leg)
      ensures highest' == highest || Heard(w, old(asked), asked, highest')
      ensures w.steady && ok && old(Mid(w)) && old(TipOn(w)) ==> Mid(w) && TipOn(w)
    {
      hide Valid, TipOn, Mid, On, WorldOk, Went, Tracker.View, Tracker.Valid, Run, Faulted, Heard, Drained, PassOf, Buffer,
           Canonical, WfTree, Book.EnteredUpward, Book.Entered, Now, Refreshing, LegRun, OnlyLive, Did, DrainedDeeds;
      WorldTree(w);
      ghost var was, q, a0, f0 := Now(), asked, acts, TagFinalized();
      leg := Leg(was, was, Moment(1, 0, 0), was, NoPass());
      var d;
      ok, d, highest' := FetchAndDrain(w, n, highest);
      if !ok {
        leg := Leg(was, was, Moment(1, 0, 0), Now(), NoPass());
        return;
      }
      WorldBlock(w, |q|, n);
      ghost var drained, m, log, q2 := Now(), Moment(1, 0, 0), NoPass(), asked;
      EnteredTop(book, n);
      ok, m, log := ScanFetched(w, q, d.value, highest', a0, f0);
      leg := Leg(was, drained, m, Now(), log);
      LegIsRun(cfg, origin, w, n, leg, d, ok);
      StillHeard(w, highest, highest', highest', q, q2, asked);
    }

    /** The block is fetched first; what the subscriptions delivered is handled before it is used. */
    method FetchAndDrain(w: World, n: nat, highest: nat) returns (ok: bool, d: Option<Block>, highest': nat)
      requires Valid() && WorldOk(w) && n < highest <= book.top && n < w.head.number <= highest
      requires chain.tip.Some? && chain.tip.value.number == highest
      modifies Footprint()
      ensures Valid() && fresh(Footprint() - old(Footprint()))
      ensures unchanged(`lastProcessed, `finalizedNum, `restoredPending) && old(asked) + [ForBlock(n)] <= asked
      ensures d == w.block(|old(asked)|, n) && (ok ==> d.Some?)
      ensures Went(w, old(acts), old(asked), old(TagFinalized()), n, None)
      ensures !ok ==> Faulted(w, old(asked), asked, n)
      ensures OnlyLive(old(acts), acts)
      ensures ok ==> Did(old(acts), acts, DrainedDeeds(w, |old(asked)| + 1, w.waiting(|old(asked)| + 1), highest))
      ensures chain.tip.Some? && chain.tip.value.number >= highest && highest' >= highest
      ensures ok && highest' == highest ==> chain.tip == old(chain.tip)
      ensures old(book).scanned <= book.scanned && book.start == old(book).start
      ensures ok ==> chain.tip.value.number == highest' <= book.top && book == old(book).EnteredUpward(highest + 1, highest' + 1)
      ensures ok ==> (|asked|, highest') == Drained(w, |old(asked)| + 1, w.waiting(|old(asked)| + 1), highest)
      ensures highest' == highest || Heard(w, old(asked), asked, highest')
      ensures w.steady && ok && old(Mid(w)) && old(TipOn(w)) ==> Mid(w) && TipOn(w)
    {
      hide Valid, TipOn, Mid, On, WorldOk, Went, Tracker.View, Tracker.Valid, Run, Faulted, Heard, Drained, PassOf, Buffer,
           Canonical, WfTree, Book.EnteredUpward, Book.Entered, Now, Refreshing, OnlyLive, Did, DrainedDeeds;
      WorldTree(w);
      highest' := highest;
      ok := false;
      ghost var q, a0, f0, b0 := asked, acts, TagFinalized(), book;
      d := AskBlock(w, n);
      WentNothing(w, q, n);
      if d.None? {
        BlockFaulted(w, q, asked, n, n);
        StillLive(acts);
        return;
      }
      ghost var q1 := asked;
      WentParts(w, a0, q, f0, n, None);
      ok, highest' := DrainLive(w, highest, n);
      WentOn(w, a0, q, f0, n, None, a0, q1, f0, n);
      StillHeard(w, highest, highest, highest', q, q1, asked);
      if !ok { FaultedWider(w, q1, asked, highest, q, n); }
      UpwardBooks(b0, highest + 1, highest' + 1);
    }

    /** A block fetched by request `q`, before the live traffic, is processed and the lifecycles are updated. */
    method ScanFetched(w: World, ghost q: Asked, b: Block, highest: nat, ghost a0: seq<Act>, ghost f0: nat)
      returns (ok: bool, ghost m: Moment, ghost log: PassLog)
      requires Valid() && WorldOk(w) && b.number < highest <= book.top && BlockOk(w, b.number, b)
      requires w.block(|q|, b.number) == Some(b) && q + [ForBlock(b.number)] <= asked && Went(w, a0, q, f0, b.number, None)
      requires chain.tip.Some? && chain.tip.value.number == highest && w.head.number <= highest
      modifies Footprint()
      ensures Valid() && fresh(Footprint() - old(Footprint()))
      ensures lastProcessed == old(lastProcessed) && old(asked) <= asked
      ensures Went(w, a0, q, f0, b.number, None)
      ensures PassOf(cfg, origin, w, chain.tip, old(restoredPending), highest, b.number, TagFinalized(),
                     |old(asked) + Refreshing(cfg)|, old(acts) + [Processed(b, m)], acts, log, ok)
      ensures restoredPending == if ok then [] else old(restoredPending)
      ensures chain.tip == old(chain.tip) && book == old(book).Entered(b.number)
      ensures w.steady && old(Mid(w)) ==> Mid(w)
      ensures w.steady && old(TipOn(w)) ==> TipOn(w)
    {
      hide Valid, Run, Process, TxsOn, HeadersOn, On, WorldOk, Went, Recorded, Tracker.View, Tracker.Valid, Grounded, PassOf,
           Placed, Faulted, StartKnown, Buffer, Book.Entered, RecordedAll, FilmOf, Refreshing, Did;
      WorldTree(w);
      ChainNow();
      TipBegun();
      ghost var a1, q1, f1 := acts, asked, TagFinalized();
      WentParts(w, a0, q, f0, b.number, None);
      EnteredTop(book, b.number);
      m := ScanServed(w, q, b, b.number);
      ghost var a2, s2 := acts, tracker.View();
      LateBlock(w, a0, q, f0, b.number, a1);
      ok, log := UpdateLifecycles(w, highest, b.number);
      WentPass(w, a0, q, f0, b.number, a2, q1, f1);
      if w.steady && old(Mid(w)) { PlacedOn(w, s2, tracker.View(), w.head.number, book.top); }
    }

    /** A block processed after the requests that followed its own. */
    lemma LateBlock(w: World, a0: seq<Act>, q: Asked, f0: nat, floor: nat, a1: seq<Act>)
      requires Grounded(cfg, origin, w, Span(q, asked, f0, floor, None), a0, a1) && Known(w, q, asked, f0, TagFinalized())
      requires Grounded(cfg, origin, w, Span(q, asked, TagFinalized(), floor, None), a1, acts) && q <= asked
      ensures Grounded(cfg, origin, w, Span(q, asked, f0, floor, None), a0, acts)
    {
      hide Run, Grounded, Known;
      GroundedWiden(cfg, origin, w, Span(q, asked, TagFinalized(), floor, None), Span(q, asked, f0, floor, None), a1, acts);
      GroundedJoin(cfg, origin, w, Span(q, asked, f0, floor, None), a0, a1, acts);
    }

    /** A lifecycle pass after that. */
    lemma WentPass(w: World, a0: seq<Act>, q0: Asked, f0: nat, floor: nat, a1: seq<Act>, q1: Asked, f1: nat)
      requires Grounded(cfg, origin, w, Span(q0, q1, f0, floor, None), a0, a1) && Known(w, q0, q1, f0, f1)
      requires Grounded(cfg, origin, w, Span(q1, asked, f1, floor, None), a1, acts) && Known(w, q1, asked, f1, TagFinalized())
      ensures Went(w, a0, q0, f0, floor, None)
    {
      WentOn(w, a0, q0, f0, floor, None, a1, q1, f1, floor);
    }

    /** The pictures before and after the scan position moves. */
    lemma LastMoved(before: Shot)
      requires before == Now().(last := before.last)
      ensures Now() == before.(last := lastProcessed)
    {
    }

    ghost function Buffer(): Headers
      reads chain, chain.refs
    {
      if chain.Valid() then chain.Headers() else map[]
    }

    // -------------------------------------------------------------- reorgs

    ghost function Now(): (b: Shot)
      reads this, tracker, tracker.txs.Values, chain, chain.refs
      ensures b.acts == acts && b.asked == asked && b.tip == chain.tip && b.last == lastProcessed && b.book == book
      ensures b.s == tracker.View() && b.buf == Buffer() && b.depth == chain.depth && b.fin == TagFinalized()
      ensures b.restored == restoredPending
    {
      Shot(tracker.View(), Buffer(), chain.depth, chain.tip, lastProcessed, TagFinalized(), restoredPending, book, acts, asked)
    }

    /** New books over the same scan. */
    ghost method Rebook(b: Book)
      requires Valid() && b.log == book.log && b.scanned == book.scanned
      requires b.start == book.start || !StartKnown(boot, acts)
      modifies this`book
      ensures Valid() && book == b
    {
      hide *;
      Films();
      Replays();
      FilmRebooked(boot, chain.depth, acts, chain.recorded, chain.tip, book, b);
      book := b;
      Assemble();
    }

    /**
     Demotes everything above the ancestor and falls back to it: exactly the transactions mined there are
     pending again, each reported reorged leg by leg, and nothing else changes.
     */
    method Rewind(ancestor: nat) returns (ghost order: seq<Hash>, ghost now: Time)
      requires Valid()
      modifies this`out, this`acts, this`lastProcessed, this`book, tracker, tracker.txs.Values
      ensures Valid() && tracker.txs.Values == old(tracker.txs.Values)
      ensures lastProcessed == ancestor && book == old(book).Forked(ancestor)
      ensures Enumerates(order, old(tracker.View()).txs.Keys)
      ensures acts == old(acts) + [Took(ForkedAt(ancestor, order, now), TagFinalized())]
      ensures tracker.View().txs.Keys == old(tracker.View()).txs.Keys && out[..|old(out)|] == old(out) <= out
      ensures forall h :: h in old(tracker.View()).txs ==>
        tracker.View().txs[h] == if Reverted(old(tracker.View()), ancestor, h) then BackToMempool(old(tracker.View()).txs[h], now)
                                 else old(tracker.View()).txs[h]
      ensures forall h ::
        EventsFor(out[|old(out)|..], h)
        == (if Reverted(old(tracker.View()), ancestor, h) then Events(old(tracker.View()).txs[h], Reorged, 0) else [])
    {
      hide *;
      Replays();
      ghost var s0, out0 := tracker.View(), out;
      order, now := TakeFork(ancestor);
      OnReorgExact(s0, ancestor, order, now);
      assert out[..|out0|] == out0 && out[|out0|..] == Lifecycle.OnReorg(s0, ancestor, order, now).1;
      lastProcessed := ancestor;
    }

    /** Falls back to the fork: what is still tracked and buffered below it is on the new chain. */
    method Unwind(w: World, fork: nat, deep: bool)
      requires Valid() && WorldOk(w) && chain.tip.Some? && fork <= chain.tip.value.number
      requires !deep ==> Agrees(Buffer(), w.remote, fork)
      modifies this`out, this`acts, this`lastProcessed, this`book, tracker, tracker.txs.Values
      ensures Valid() && tracker.txs.Values == old(tracker.txs.Values)
      ensures lastProcessed == fork && book == old(book).Forked(fork)
      ensures FellTo(old(Now()), acts, fork) && |acts| == |old(acts)| + 1 && Did(old(acts), acts, [OfFork(fork)])
      ensures Went(w, old(acts), old(asked), old(TagFinalized()), 0, Some(fork))
      ensures !deep ==> fork in Buffer()
      ensures !deep && w.steady && old(OnOneChain(w.tree)) ==> Mid(w)
    {
      hide Valid, Run, On, Canonical, TxsOn, HeadersOn, WorldOk, Agrees, Tracker.View, Tracker.Valid, Went, Grounded, Reverted,
           Buffered, BackToMempool, Book.Forked, EventsFor, Events, Enumerates;
      WorldTree(w);
      ChainNow();
      ghost var s0, buf0, a0, f0, r0 := tracker.View(), Buffer(), acts, TagFinalized(), chain.tip.value;
      ghost var order, now := Rewind(fork);
      DidOne(a0, acts[|a0|]);
      ForkWent(w, a0, fork, order, now);
      ChainNow();
      if !deep {
        AgreesKnown(buf0, w.remote, fork);
        if w.steady && Canonical(w.tree, s0, buf0, Some(r0)) {
          ReorgLeaves(s0, tracker.View(), fork, now);
          ForkMid(w, s0, tracker.View(), buf0, r0, fork);
          ForkedBooks(old(book), fork);
          MidNow(w);
        }
      }
    }

    lemma ForkWent(w: World, a0: seq<Act>, fork: nat, order: seq<Hash>, now: Time)
      requires acts == a0 + [Took(ForkedAt(fork, order, now), TagFinalized())]
      ensures Went(w, a0, asked, TagFinalized(), 0, Some(fork))
    {
      hide Run, Grounded;
      GroundedOne(cfg, origin, w, Span(asked, asked, TagFinalized(), 0, Some(fork)), a0, Took(ForkedAt(fork, order, now), TagFinalized()));
    }

    /** Replays the numbers above the fork. */
    method Rescan(w: World, fork: nat, ghost b0: Book) returns (ok: bool)
      requires Valid() && WorldOk(w) && chain.tip.Some? && fork <= chain.tip.value.number
      requires book == b0.Forked(fork) && lastProcessed == fork
      modifies Footprint()
      ensures Valid() && fresh(Footprint() - old(Footprint())) && unchanged(`finalizedNum, `restoredPending)
      ensures Went(w, old(acts), old(asked), old(TagFinalized()), 0, Some(fork))
      ensures chain.tip.Some? && TipAhead() && book.start == b0.start
      ensures b0.NoGap(fork) ==> Unbroken()
      ensures !ok ==> lastProcessed == fork && RefusedAt(w, old(asked), asked, fork + 1)
      ensures !ok ==> Did(old(acts), acts, BlockDeeds(fork + 1, asked[|asked| - 1].number))
      ensures ok ==> Did(old(acts), acts, BlockDeeds(fork + 1, w.head.number + 1) + [OfLanding(w.head.number)])
      ensures ok ==> lastProcessed == w.head.number && book == b0.Forked(fork).EnteredUpward(fork + 1, w.head.number + 1)
      ensures ok && w.steady && old(Mid(w)) ==> Mid(w)
      ensures ok && (fork < w.head.number || (fork == w.head.number && w.head.number in old(Buffer()))) ==>
        chain.tip.value.number == w.head.number && (w.steady && old(Mid(w)) ==> TipOn(w))
    {
      hide Valid, Mid, TipOn, On, WorldOk, Went, Tracker.View, Tracker.Valid, Run, Faulted, Buffer, Book.EnteredUpward,
           Book.Forked, Did, BlockDeeds;
      WorldTree(w);
      ok := true;
      ghost var done := fork + 1;
      ghost var q := asked;
      NothingUp(book, fork + 1);
      DidNothing(acts);
      NoBlocks(fork + 1, w.head.number + 1);
      WentNowhere(w, 0, None);
      if fork < w.head.number {
        ok, done := ProcessUpward(w, fork + 1, w.head.number, 0);
      }
      WentWithin(w, old(acts), q, old(TagFinalized()), fork);
      ForkBooks(b0, fork, done);
      if !ok {
        return;
      }
      NothingBelow(b0.Forked(fork), fork + 1, w.head.number + 1);
      ghost var a1 := acts;
      Land(w, w.head.number);
      DidOne(a1, acts[|a1|]);
      DidThen(old(acts), a1, acts, BlockDeeds(fork + 1, w.head.number + 1), [OfLanding(w.head.number)]);
      WentLanded(w, old(acts), q, old(TagFinalized()), fork, a1);
    }

    lemma WentWithin(w: World, a: seq<Act>, q: Asked, fin: nat, fork: nat)
      requires Went(w, a, q, fin, 0, None)
      ensures Went(w, a, q, fin, 0, Some(fork))
      ensures Grounded(cfg, origin, w, Span(q, asked, fin, 0, Some(fork)), a, acts) && Known(w, q, asked, fin, TagFinalized())
    {
      hide Run, Grounded, Known;
      WentParts(w, a, q, fin, 0, None);
      GroundedWider(cfg, origin, w, Span(q, asked, fin, 0, None), Span(q, asked, fin, 0, Some(fork)), a, acts);
    }

    /** The reorg's last act. */
    lemma WentLanded(w: World, a: seq<Act>, q: Asked, fin: nat, fork: nat, a1: seq<Act>)
      requires Grounded(cfg, origin, w, Span(q, asked, fin, 0, Some(fork)), a, a1) && Known(w, q, asked, fin, TagFinalized())
      requires acts == a1 + [Landed(w.head.number, TagFinalized())]
      ensures Went(w, a, q, fin, 0, Some(fork))
    {
      hide Run, Known;
      var sp := Span(q, asked, fin, 0, Some(fork));
      GroundedOne(cfg, origin, w, sp, a1, Landed(w.head.number, TagFinalized()));
      GroundedJoin(cfg, origin, w, sp, a, a1, acts);
    }

    /** The new head may be lower than the orphaned tip: the tip moves to it if it is buffered. */
    method Land(w: World, headNumber: nat)
      requires Valid() && WfTree(w.tree) && chain.tip.Some?
      modifies this`lastProcessed, this`acts, chain`tip
      ensures Valid() && lastProcessed == headNumber && chain.tip.Some? && acts == old(acts) + [Landed(headNumber, TagFinalized())]
      ensures Buffer() == old(Buffer())
      ensures headNumber in Buffer() ==> chain.tip.value.number == headNumber
      ensures headNumber !in Buffer() ==> chain.tip == old(chain.tip)
      ensures old(Mid(w)) ==> Mid(w)
      ensures old(Mid(w)) && headNumber in Buffer() && (headNumber <= book.base || headNumber in book.since) ==> TipOn(w)
    {
      hide Valid, Inv, Run, Lawful, FilmOf, TxsOn, On, Buffered, RecordedAll, Tracker.View, Tracker.Valid;
      ChainNow();
      lastProcessed := headNumber;
      TakeLanding(headNumber);
    }

    method FindFork(w: World, walkFrom: nat) returns (r: Outcome)
      requires Valid() && chain.tip.Some? && walkFrom <= chain.tip.value.number
      ensures r == Walk(Buffer(), w.remote, walkFrom, FloorAt(chain.tip, chain.depth), 0)
      ensures r.Deep? ==> r.floor <= chain.tip.value.number
      ensures r.Found? ==> r.ancestor <= walkFrom && Agrees(Buffer(), w.remote, r.ancestor)
    {
      hide Inv, Run, Lawful, FilmOf, Walk, Agrees, Tracker.View, Tracker.Valid, Buffered, RecordedAll;
      r := chain.FindAncestor(w.remote, walkFrom);
      WalkFindsGreatest(chain.Headers(), w.remote, walkFrom, chain.Floor(), 0);
    }

    /** Rewinds to the fork and replays the node's chain from there up to the head. */
    method Replay(w: World, fork: nat, deep: bool) returns (ok: bool)
      requires Valid() && WorldOk(w) && chain.tip.Some? && fork <= chain.tip.value.number
      requires !deep ==> fork <= w.head.number && Agrees(Buffer(), w.remote, fork)
      modifies Footprint()
      ensures Valid() && fresh(Footprint() - old(Footprint())) && unchanged(`finalizedNum, `restoredPending)
      ensures Replayed(w, old(Now()), Now(), fork, ok)
      ensures Went(w, old(acts), old(asked), old(TagFinalized()), 0, Some(fork))
      ensures chain.tip.Some? && TipAhead() && book.start == old(book).start
      ensures old(Unbroken()) && 0 < old(lastProcessed) == old(chain.tip).value.number ==> Unbroken()
      ensures ok ==> lastProcessed == w.head.number && (!deep ==> chain.tip.value.number == w.head.number)
      ensures ok && !deep && w.steady && old(OnOneChain(w.tree)) ==> OnOneChain(w.tree) && TipOn(w)
    {
      hide Valid, Mid, TipOn, On, Canonical, WorldOk, Agrees, Book.NoGap, Went, Grounded, Run, Tracker.View, Tracker.Valid,
           Faulted, FellTo, Buffer, Book.EnteredUpward, Book.Forked, Did, BlockDeeds;
      WorldTree(w);
      NoGapBelow(book, lastProcessed, fork);
      ghost var b0, settled, was := book, !deep && w.steady && OnOneChain(w.tree), Now();
      Unwind(w, fork, deep);
      ghost var a1, q1, f1 := acts, asked, TagFinalized();
      WentParts(w, old(acts), old(asked), old(TagFinalized()), 0, Some(fork));
      ok := Rescan(w, fork, b0);
      WentBoth(w, old(acts), old(asked), old(TagFinalized()), 0, Some(fork), a1, q1, f1, 0);
      WentParts(w, a1, q1, f1, 0, Some(fork));
      StillFell(was, a1, acts, fork);
      if ok {
        DidThen(was.acts, a1, acts, [OfFork(fork)], BlockDeeds(fork + 1, w.head.number + 1) + [OfLanding(w.head.number)]);
        DeedsJoin([OfFork(fork)], BlockDeeds(fork + 1, w.head.number + 1), [OfLanding(w.head.number)]);
      } else {
        DidThen(was.acts, a1, acts, [OfFork(fork)], BlockDeeds(fork + 1, asked[|asked| - 1].number));
      }
      if ok && settled {
        ForkBooks(b0, fork, w.head.number + 1);
        CanonicalNow(w, fork, w.head.number);
      }
    }

    lemma CanonicalNow(w: World, fork: nat, headNumber: nat)
      requires WfTree(w.tree) && Valid() && Mid(w) && TipOn(w)
      requires chain.tip.value.number == headNumber == book.top && book.base == fork
      requires forall n :: fork < n <= headNumber ==> n in book.since
      ensures OnOneChain(w.tree)
    {
      hide Inv, Run, Lawful, FilmOf, On, TxsOn, HeadersOn, Tracker.View, Tracker.Valid, Canonical;
      CanonicalAt(w.tree, w.canon, tracker.View(), Buffer(), chain.tip.value, fork, book.since);
    }

    /**
     Finds the common ancestor, demotes what was mined above it, rescans the new chain up to the announced head
     and moves the tip there. A failed walk changes nothing; a failed rescan leaves `lastProcessed` at the
     ancestor.
     */
    method HandleReorg(w: World) returns (ok: bool, deep: bool)
      requires Valid() && WorldOk(w) && chain.tip.Some? && TipAhead()
      modifies Footprint()
      ensures Valid() && fresh(Footprint() - old(Footprint())) && unchanged(`finalizedNum, `restoredPending)
      ensures ReorgHandled(w, old(Now()), Now(), deep, ok)
      ensures Went(w, old(acts), old(asked), old(TagFinalized()), 0, ForkOf(WalkOf(w, old(Now()))))
      ensures chain.tip.Some? && TipAhead()
      ensures old(Unbroken()) && 0 < old(lastProcessed) == old(chain.tip).value.number ==> Unbroken()
      ensures ok ==> lastProcessed == w.head.number && (!deep ==> chain.tip.value.number == w.head.number)
      ensures ok && !deep && w.steady && old(OnOneChain(w.tree)) ==> OnOneChain(w.tree) && TipOn(w)
    {
      hide Valid, Unbroken, Canonical, Walk, On, WorldOk, Agrees, TipOn, Went, Replayed, Tracker.View, Tracker.Valid, Buffer;
      WorldTree(w);
      ok, deep := false, false;
      var walkFrom := if chain.tip.value.number < w.head.number then chain.tip.value.number else w.head.number;
      var r := FindFork(w, walkFrom);
      var fork: nat;
      match r {
        case Failure(_) =>
          WentNowhere(w, 0, None);
          return;
        case Deep(floor) => fork, deep := floor, true;
        case Found(number) => fork := number;
      }
      ok := Replay(w, fork, deep);
    }

    // -------------------------------------------------------------- the stream

    /**
     At every moment every event ever emitted was safe at its own act, and no confirmed one overstates the depth of
     its block below the tip the acts before that left.
     */
    lemma StreamSafe(j: nat)
      requires Valid() && j < |out|
      ensures chain.depth > 0 && SafeAt(cfg, origin, acts, j)
      ensures var k := Run(cfg, origin, acts).emitters[j];
              NotOverstated(cfg, TipOf(chain.depth, boot, acts[..k]), acts[k], out[j])
    {
      hide Inv, Lawful, Run, NotOverstated, SafeAt, DepthTrue, TipOf, Tracker.View, Tracker.Valid;
      StreamDepth(cfg, origin, chain.depth, boot, acts, j);
      EmitterKnown(cfg, origin, acts, j);
    }

    /** From a fresh start the stream is that of a run of tracker inputs: the grammar theorems are about it. */
    lemma StreamIsARun()
      requires Valid() && origin == FRESH
      ensures var inputs := AllInputs(cfg, FRESH, acts);
              Grammar.WellFormedRun(cfg, inputs) && Grammar.Play(cfg, inputs).s == tracker.View() && Feed(cfg, FRESH, inputs).1 == out
    {
      hide Inv, Lawful, Run, FilmOf, Feed, AllInputs, Grammar.Play, Tracker.View;
      JournalIsARun(cfg, acts);
    }

    /**
     Begun where a life of the restart mirror stands, with its events persisted input by input and distinct legs,
     the loop continues that life: the table mirrors the tracked state.
     */
    lemma StreamIsALife(indexer: nat, turns: seq<Mirror.Turn>, stages: seq<Mirror.Stage>,
                        rows: seq<map<Storage.RowKey, Storage.Row>>, nows: seq<Time>)
      requires Valid() && Mirror.Life(cfg, indexer, turns, stages) && stages[|turns|].s == origin
      requires Lives.AllDistinct(AllInputs(cfg, origin, acts))
      requires Lives.PersistedRun(cfg, indexer, origin, AllInputs(cfg, origin, acts), rows, nows) && rows[0] == stages[|turns|].rows
      ensures var inputs := AllInputs(cfg, origin, acts);
              && Mirror.Life(cfg, indexer, turns + Lives.TurnsOf(inputs, nows), stages + Lives.StagesOf(cfg, origin, inputs, rows))
              && Feed(cfg, origin, inputs).1 == out
              && Mirror.Agree(rows[|inputs|], indexer, tracker.View())
    {
      hide Inv, Lawful, Run, FilmOf, Feed, AllInputs, Tracker.View, Mirror.Follows, Mirror.Agree, Lives.PersistedAt;
      Lives.JournalIsALife(cfg, indexer, turns, stages, acts, rows, nows);
    }

    // -------------------------------------------------------------- heads

    /** The scan and the ring agree. */
    ghost predicate Level()
      reads this, chain
    {
      LevelAt(chain.tip, lastProcessed)
    }

    /** The flagship invariant for the tree `t`. */
    ghost predicate OnOneChain(t: Tree)
      reads tracker, tracker.txs.Values, chain, chain.refs
      requires WfTree(t)
    {
      Canonical(t, tracker.View(), Buffer(), chain.tip)
    }

    /** Books the start of an extend step: the fork point is the parent. */
    ghost method BeginExtend(w: World, first: bool)
      requires Valid() && WorldOk(w) && (first ==> chain.tip.None? && boot.resumed.None?)
      requires chain.tip.Some? ==> w.head.number == chain.tip.value.number + 1 && w.head.parent == chain.tip.value.hash
      modifies this`book
      ensures Valid()
      ensures book == ExtendBook(old(book), first, w.head.number, false)
      ensures w.steady && old(OnOneChain(w.tree)) ==> Mid(w)
    {
      hide Valid, On, WorldOk, Canonical, TxsOn, HeadersOn, Tracker.View, Tracker.Valid, StartKnown;
      WorldTree(w);
      WorldHead(w);
      ChainNow();
      TipBegun();
      Rebook(ExtendBook(book, first, w.head.number, false));
      ChainNow();
      if w.steady && old(OnOneChain(w.tree)) {
        ExtendMid(w, tracker.View(), Buffer(), chain.tip);
        MidNow(w);
      }
    }

    lemma UnbrokenParts()
      requires Unbroken()
      ensures lastProcessed > 0 ==> book.NoGap(lastProcessed)
    {
    }

    lemma UnbrokenNow()
      requires lastProcessed > 0 ==> book.NoGap(lastProcessed)
      ensures Unbroken()
    {
    }

    lemma ExtendedNow(w: World, was: Shot, ok: bool, m: Moment)
      requires asked == was.asked + [ForHead] && TagFinalized() == was.fin && restoredPending == was.restored
      requires ok <==> w.announced(|was.asked|).Some?
      requires ok ==> chain.tip.Some? && chain.tip.value.number == lastProcessed == w.head.number && chain.tip.value.hash == w.head.hash
      requires ok ==> acts == was.acts + [Processed(w.announced(|was.asked|).value, m)] && book.log == was.book.log + [w.head.number]
      requires !ok ==> acts == was.acts && book.log == was.book.log && chain.tip == was.tip && lastProcessed == was.last
      requires !ok ==> tracker.View() == was.s && Buffer() == was.buf && chain.depth == was.depth
      ensures Extended(w, was, Now(), ok)
    {
      hide Buffer, Tracker.View;
    }

    /** Fetches and processes the announced block on top of the tip. */
    method ScanOnTip(w: World, ghost first: bool) returns (ok: bool, ghost m: Moment)
      requires Valid() && WorldOk(w) && (first <==> chain.tip.None? && boot.resumed.None?)
      requires chain.tip.Some? ==> w.head.number == chain.tip.value.number + 1 && w.head.parent == chain.tip.value.hash
      modifies Footprint()
      ensures Valid() && fresh(Footprint() - old(Footprint()))
      ensures unchanged(`lastProcessed, `finalizedNum, `restoredPending)
      ensures asked == old(asked) + [ForHead] && (ok <==> w.announced(|old(asked)|).Some?)
      ensures Went(w, old(acts), old(asked), old(TagFinalized()), 0, None)
      ensures !ok ==> chain.tip == old(chain.tip) && acts == old(acts)
      ensures !ok ==> tracker.View() == old(tracker.View()) && Buffer() == old(Buffer())
      ensures ok ==> acts == old(acts) + [Processed(w.announced(|old(asked)|).value, m)]
      ensures book == ExtendBook(old(book), first, w.head.number, ok)
      ensures ok ==> chain.tip.Some? && chain.tip.value.number == w.head.number && chain.tip.value.hash == w.head.hash
      ensures ok && w.steady && old(OnOneChain(w.tree)) ==> Mid(w) && TipOn(w)
    {
      hide Valid, Mid, TipOn, On, WorldOk, Canonical, Went, Tracker.View, Tracker.Valid, Run, Buffer, Book.Entered, Book.Anchored,
           OnOneChain, WfTree, StartKnown;
      WorldTree(w);
      WorldHead(w);
      TipRises(chain.tip, w.head.number);
      TipBegun();
      StartsAt(book, first, w.head.number);
      BeginExtend(w, first);
      TipBegun();
      ok, m := ScanAnnounced(w, 0);
    }

    /** A block extending the tip, or the very first one. */
    method ExtendTip(w: World) returns (ok: bool)
      requires Valid() && WorldOk(w) && TipAhead()
      requires chain.tip.Some? ==> w.head.number == chain.tip.value.number + 1 && w.head.parent == chain.tip.value.hash
      requires lastProcessed > 0 ==> w.head.number <= lastProcessed + 1
      modifies Footprint()
      ensures Valid() && fresh(Footprint() - old(Footprint())) && unchanged(`finalizedNum, `restoredPending)
      ensures Extended(w, old(Now()), Now(), ok)
      ensures Went(w, old(acts), old(asked), old(TagFinalized()), 0, None)
      ensures old(Unbroken()) && (old(lastProcessed) > 0 || old(chain.tip).None?) ==> Unbroken()
      ensures TipAhead() && (ok || old(chain.tip).Some? ==> chain.tip.Some?)
      ensures ok ==> lastProcessed == chain.tip.value.number == w.head.number
      ensures ok && w.steady && old(OnOneChain(w.tree)) ==> OnOneChain(w.tree) && TipOn(w)
    {
      hide Valid, Mid, TipOn, On, WorldOk, Canonical, Went, Tracker.View, Tracker.Valid, Run, Buffer, ExtendBook, Book.NoGap,
           OnOneChain, WfTree, Extended, Now, Unbroken;
      WorldTree(w);
      WorldHead(w);
      TipBegun();
      ghost var was, m := Now(), Moment(1, 0, 0);
      ghost var first := chain.tip.None? && boot.resumed.None?;
      ghost var kept := Unbroken() && (lastProcessed > 0 || first);
      if kept { UnbrokenParts(); }
      ExtendBooks(book, first, lastProcessed, w.head.number);
      ok, m := ScanOnTip(w, first);
      if ok { lastProcessed := w.head.number; }
      ExtendedNow(w, was, ok, m);
      if kept { UnbrokenNow(); }
      if ok && w.steady && old(OnOneChain(w.tree)) { CanonicalNow(w, w.head.number - 1, w.head.number); }
    }

    /** Heads were missed: the range above `lastProcessed` is caught up. */
    method CatchUp(w: World) returns (ok: bool, highest: nat, ghost trail: Trail)
      requires Valid() && WorldOk(w) && TipAhead() && lastProcessed < w.head.number && (chain.tip.Some? || boot.resumed.Some?)
      requires chain.tip.Some? ==> chain.tip.value.number <= w.head.number
      modifies Footprint()
      ensures Valid() && fresh(Footprint() - old(Footprint()))
      ensures GapClosed(cfg, origin, w, old(Now()), Now(), trail, ok) && (ok ==> highest == lastProcessed)
      ensures Went(w, old(acts), old(asked), old(TagFinalized()), old(lastProcessed) + 1, None)
      ensures TipAhead() && (ok || old(chain.tip).Some? ==> chain.tip.Some?)
      ensures ok ==> chain.tip.Some? && chain.tip.value.number == lastProcessed
      ensures old(Unbroken()) && old(lastProcessed) > 0 ==> Unbroken()
      ensures ok && w.steady && old(OnOneChain(w.tree)) && old(Level()) && old(TipOn(w)) ==> OnOneChain(w.tree) && TipOn(w)
    {
      hide Valid, Mid, TipOn, On, WorldOk, Canonical, ExactlyOnce, Went, Tracker.View, Tracker.Valid, Run, Buffer, Faulted, Heard,
           Trailed, Stopped;
      WorldTree(w);
      ghost var settled := w.steady && OnOneChain(w.tree) && Level() && TipOn(w);
      var from := lastProcessed + 1;
      BeginGap(w);
      ok, highest, trail := CatchUpScan(w, from);
      if ok && settled { CanonicalNow(w, from - 1, highest); }
    }

    ghost method BeginGap(w: World)
      requires Valid() && WfTree(w.tree)
      modifies this`book
      ensures Valid() && book == old(book).Anchored(lastProcessed)
      ensures w.steady && old(OnOneChain(w.tree)) && Level() && TipOn(w) ==> Mid(w)
    {
      hide Valid, On, Canonical, TxsOn, HeadersOn, Tracker.View, Tracker.Valid;
      ChainNow();
      Rebook(book.Anchored(lastProcessed));
      ChainNow();
      if w.steady && old(OnOneChain(w.tree)) && Level() && TipOn(w) {
        TipMid(w, tracker.View(), Buffer(), chain.tip.value);
        MidNow(w);
      }
    }

    /** How a head is treated. */
    method Treat(head: HeadRef) returns (kind: HeadKind)
      requires Valid() && TipAhead()
      ensures kind == TreatedAs(chain.tip, Buffer(), lastProcessed, head)
    {
      hide Inv, Run, Lawful, FilmOf, Tracker.View, Tracker.Valid, Buffered, RecordedAll;
      kind := chain.Classify(head);
      if kind == Extend && lastProcessed > 0 && head.number > lastProcessed + 1 {
        kind := Gap;
      }
    }

    /** Advances the canonical chain view by the announced head. */
    method AdvanceChain(w: World) returns (ok: bool, num: nat, kind: HeadKind, deep: bool, ghost trail: Trail)
      requires Valid() && WorldOk(w) && TipAhead()
      modifies Footprint()
      ensures Valid() && fresh(Footprint() - old(Footprint())) && TipAhead()
      ensures Treated(cfg, origin, w, old(Now()), Now(), kind, deep, ok, trail)
      ensures ok && !kind.Stale? ==> lastProcessed == num && chain.tip.Some?
      ensures old(Unbroken() && (lastProcessed > 0 || chain.tip.None?)) && (kind.Reorg? ==> old(Level())) ==> Unbroken()
      ensures ok && !deep && w.steady && old(OnOneChain(w.tree)) && old(Level()) && (kind.Gap? ==> old(TipOn(w))) ==>
        OnOneChain(w.tree) && Level() && (kind.Stale? || TipOn(w))
    {
      hide Valid, TipOn, On, WorldOk, Canonical, Went, Tracker.View, Tracker.Valid, Run, Buffer, Grounded, Walk, ExactlyOnce,
           Faulted, Heard, FellTo, Extended, GapClosed, ReorgHandled, Treated, Inv, FilmOf, StartKnown;
      WorldTree(w);
      ghost var was := Now();
      num, deep, trail := w.head.number, false, Trail(was, [], Leg(was, was, Moment(1, 0, 0), was, NoPass()));
      kind := Treat(w.head);
      match kind {
        case Stale =>
          WentNowhere(w, 0, None);
          ok := true;
        case Extend => ok := ExtendTip(w);
        case Gap => ok, num, trail := CatchUp(w);
        case Reorg => ok, deep := HandleReorg(w);
      }
      TreatedNow(w, was, kind, deep, ok, trail);
    }

    lemma TreatedNow(w: World, was: Shot, kind: HeadKind, deep: bool, ok: bool, trail: Trail)
      requires kind == TreatedAs(was.tip, was.buf, was.last, w.head)
      requires Went(w, was.acts, was.asked, was.fin, GroundOf(w, was, Now(), kind).floor, GroundOf(w, was, Now(), kind).fork)
      requires chain.depth == was.depth && (was.tip.Some? ==> chain.tip.Some?) && (!kind.Reorg? ==> !deep)
      requires match kind
               case Stale => ok && Now() == was
               case Extend => Extended(w, was, Now(), ok)
               case Gap => GapClosed(cfg, origin, w, was, Now(), trail, ok)
               case Reorg => was.tip.Some? && ReorgHandled(w, was, Now(), deep, ok)
      ensures Treated(cfg, origin, w, was, Now(), kind, deep, ok, trail)
    {
      hide Grounded, Run, Extended, GapClosed, ReorgHandled, WalkOf, TreatedAs, Tracker.View;
      var m := Now();
      WentParts(w, was.acts, was.asked, was.fin, GroundOf(w, was, m, kind).floor, GroundOf(w, was, m, kind).fork);
    }

    /** The lifecycle pass after a head leaves the chain view alone and every inclusion on the chain. */
    method FollowUp(w: World, num: nat) returns (ok: bool, ghost log: PassLog)
      requires Valid() && WorldOk(w) && num == lastProcessed && TipAhead() && chain.tip.Some?
      modifies Footprint()
      ensures Valid() && fresh(Footprint() - old(Footprint()))
      ensures FollowedUp(cfg, origin, w, old(Now()), Now(), log, ok)
      ensures (TipAhead() <==> old(TipAhead())) && (Unbroken() <==> old(Unbroken()))
      ensures chain.tip == old(chain.tip) && lastProcessed == old(lastProcessed) && book == old(book)
      ensures w.steady && old(OnOneChain(w.tree)) && old(TipOn(w)) && w.head.number <= num == chain.tip.value.number ==>
        OnOneChain(w.tree)
    {
      hide Valid, Run, On, WorldOk, Canonical, Tracker.View, Tracker.Valid, Grounded, PassOf, Placed, Known;
      WorldTree(w);
      ChainNow();
      ghost var was := Now();
      ok, log := UpdateLifecycles(w, num, 0);
      if w.steady && Canonical(w.tree, was.s, was.buf, was.tip) && old(TipOn(w)) && w.head.number <= num == chain.tip.value.number {
        CanonicalPlaced(w, was.s, tracker.View(), was.buf, chain.tip.value);
      }
    }

    lemma ShownNow()
      requires Valid()
      ensures Shown(cfg, origin, boot, Now())
    {
      hide Inv, Run, Lawful, NumbersOf, ScannedOf, Refs, TipOf, DepthTrue, RecordedAll, StartKnown, Tracker.Valid, Tracker.View;
    }

    /** One announced head: the chain view first, then the lifecycles at the head reached. */
    method OnHead(w: World) returns (ok: bool, ghost r: Report)
      requires Valid() && WorldOk(w) && TipAhead()
      modifies Footprint()
      ensures Valid() && fresh(Footprint() - old(Footprint())) && TipAhead()
      ensures r.HeadReport? && r.before == old(Now()) && r.after == Now() && r.ok == ok
      ensures Explained(cfg, origin, boot, Announced(w), r)
      ensures old(NoSkip()) && Guarded(r) ==> NoSkip()
      ensures old(OnOneChain(w.tree)) && old(Level()) && Clean(Announced(w), r) ==> OnOneChain(w.tree) && Level()
    {
      hide Valid, On, WorldOk, Canonical, Tracker.View, Tracker.Valid, Run, Buffer, Treated, FollowedUp, Shown, NoSkip, Unbroken,
           TipAhead;
      WorldTree(w);
      ShownNow();
      UnbrokenIsNoSkip();
      ghost var before := Now();
      var num, kind, deep;
      ghost var trail;
      ok, num, kind, deep, trail := AdvanceChain(w);
      UnbrokenIsNoSkip();
      ShownNow();
      ghost var mid := Now();
      r := HeadReport(before, mid, mid, kind, deep, ok, trail, NoPass(), ok);
      if !ok || kind == Stale { return; }
      ghost var log;
      ok, log := FollowUp(w, num);
      ShownNow();
      UnbrokenIsNoSkip();
      if !deep { Reaches(cfg, origin, w, before, mid, kind, deep, trail); }
      r := HeadReport(before, mid, Now(), kind, deep, true, trail, log, ok);
    }

    method OnMempool(matches: seq<Match>) returns (ghost r: Report)
      requires Valid() && TipAhead() && (matches != [] ==> LegsOf(matches, matches[0].txHash))
      modifies this`out, this`acts, tracker, tracker.txs.Values
      ensures Valid() && fresh(tracker.txs.Values - old(tracker.txs.Values))
      ensures r.NoticeReport? && r.before == old(Now()) && r.after == Now()
      ensures Explained(cfg, origin, boot, Mempool(matches), r)
      ensures TipAhead() && (NoSkip() <==> old(NoSkip()))
      ensures forall t: Tree :: WfTree(t) && old(OnOneChain(t)) ==> OnOneChain(t)
    {
      hide Valid, Run, Canonical, Tracker.View, Tracker.Valid, Lifecycle.OnPending, NumbersOf, NoSkip, Shown;
      ShownNow();
      UnbrokenIsNoSkip();
      ghost var was := Now();
      ghost var now := TakeNotice(matches);
      ShownNow();
      UnbrokenIsNoSkip();
      r := NoticeReport(was, Now(), now);
      forall t: Tree | WfTree(t) && Canonical(t, was.s, was.buf, was.tip) ensures OnOneChain(t) {
        PendingMovesNothing(was.s, matches, now);
        NoticeKeeps(t, was.s, tracker.View(), was.buf, was.tip);
      }
    }

    /**
     Any sequence of announced heads and mempool notices, failing steps and reconnects included. The reports
     link the state before the first step to the state after the last, and each is explained by its step's
     answers.

     If every head step advanced on a steady node, was not a deep reorg and, when it jumped a gap, landed on a
     chain containing the tip, then every tracked inclusion is in the ancestry of the last processed head. If
     no reorg was entered after an interrupted catch-up and the scan never fell back to block 0, no block was
     skipped.
     */
    method Dispatch(t: Tree, steps: seq<DispatchStep>) returns (ghost reports: seq<Report>)
      requires Valid() && WfTree(t) && TipAhead()
      requires forall i :: 0 <= i < |steps| ==> StepOk(t, steps[i])
      modifies Footprint()
      ensures Valid() && TipAhead()
      ensures AllExplained(cfg, origin, boot, steps, reports) && Linked(reports, old(Now()), Now())
      ensures old(OnOneChain(t) && Level()) && AllClean(steps, reports) ==> OnOneChain(t) && Level()
      ensures old(NoSkip()) && AllGuarded(reports) ==> NoSkip()
    {
      hide Valid, Canonical, Tracker.View, Tracker.Valid, Run, Buffer, Explained, Clean, Guarded, Now, Level, NoSkip, TipAhead,
           StepOk;
      reports := [];
      for k := 0 to |steps|
        invariant Valid() && TipAhead() && |reports| == k
        invariant fresh(Footprint() - old(Footprint()))
        invariant AllExplained(cfg, origin, boot, steps[..k], reports) && Linked(reports, old(Now()), Now())
        invariant old(OnOneChain(t) && Level()) && AllClean(steps[..k], reports) ==> OnOneChain(t) && Level()
        invariant old(NoSkip()) && AllGuarded(reports) ==> NoSkip()
      {
        ghost var r := TakeStep(t, steps[k]);
        assert steps[..k + 1] == steps[..k] + [steps[k]];
        ReportsSnoc(cfg, origin, boot, steps[..k], reports, steps[k], r);
        LinkedSnoc(reports, r, old(Now()));
        reports := reports + [r];
      }
      assert steps[..|steps|] == steps;
    }

    /** In tag mode a process asks for the finalized number before its first session; a node without one is refused. */
    method VerifyTag(w: World) returns (ok: bool)
      requires Valid()
      modifies this`finalizedNum, this`asked
      ensures Valid() && asked == old(asked) + Refreshing(cfg)
      ensures ok <==> !cfg.tagMode || w.finality(|old(asked)|).Some?
      ensures TagFinalized() == Refreshed(cfg, w, |old(asked)|, old(TagFinalized()))
      ensures Now() == old(Now()).(fin := TagFinalized(), asked := asked)
    {
      hide Valid, Tracker.View, Tracker.Valid, Buffer, Refreshed;
      ok := !cfg.tagMode || w.finality(|asked|).Some?;
      RefreshFinality(w);
    }

    /** A whole run of a process: the tag is verified, then the subscriptions are dispatched. */
    method RunSession(first: World, t: Tree, steps: seq<DispatchStep>) returns (ok: bool, ghost verified: Shot, ghost reports: seq<Report>)
      requires Valid() && WfTree(t) && TipAhead()
      requires forall i :: 0 <= i < |steps| ==> StepOk(t, steps[i])
      modifies Footprint()
      ensures Valid() && TipAhead()
      ensures ok <==> !cfg.tagMode || first.finality(|old(asked)|).Some?
      ensures verified == old(Now()).(fin := Refreshed(cfg, first, |old(asked)|, old(TagFinalized())),
                                      asked := old(asked) + Refreshing(cfg))
      ensures !ok ==> Now() == verified && out == old(out)
      ensures ok ==> AllExplained(cfg, origin, boot, steps, reports) && Linked(reports, verified, Now())
      ensures ok && old(OnOneChain(t) && Level()) && AllClean(steps, reports) ==> OnOneChain(t) && Level()
      ensures ok && old(NoSkip()) && AllGuarded(reports) ==> NoSkip()
    {
      hide Valid, Canonical, Tracker.View, Tracker.Valid, Run, Buffer, Explained, Clean, Guarded, Now, StepOk, Refreshed;
      ok := VerifyTag(first);
      verified, reports := Now(), [];
      if ok { reports := Dispatch(t, steps); }
    }

    method TakeStep(t: Tree, step: DispatchStep) returns (ghost r: Report)
      requires Valid() && WfTree(t) && TipAhead() && StepOk(t, step)
      modifies Footprint()
      ensures Valid() && TipAhead() && fresh(Footprint() - old(Footprint()))
      ensures r.before == old(Now()) && r.after == Now() && Explained(cfg, origin, boot, step, r)
      ensures old(OnOneChain(t) && Level()) && Clean(step, r) ==> OnOneChain(t) && Level()
      ensures old(NoSkip()) && Guarded(r) ==> NoSkip()
    {
      hide Valid, Canonical, Tracker.View, Tracker.Valid, Run, Buffer, Explained, WorldOk, OnOneChain, NoSkip, TipAhead;
      match step {
        case Mempool(matches) => r := OnMempool(matches);
        case Announced(w) =>
          var ok;
          ok, r := OnHead(w);
      }
    }
  }

  lemma NothingTold(cfg: Config, origin: State)
    ensures Lawful(cfg, origin, []) && Run(cfg, origin, []) == Chronicle(origin, [], [])
  {
  }

  lemma FreshOk()
    ensures Inv(FRESH)
  {
  }

  lemma BlockActOk(cfg: Config, s: State, b: Block, m: Moment)
    requires WellScanned(b)
    ensures ActOk(cfg, s, Processed(b, m))
  {
  }

  lemma BlockGrounded(cfg: Config, origin: State, w: World, sp: Span, q: nat, acts: seq<Act>, a: Act)
    requires a.Processed? && FinOf(a) == sp.fin0 && ServedAt(w, sp, q, a.b)
    ensures Grounded(cfg, origin, w, sp, acts, acts + [a])
  {
    hide Run, Grounded;
    assert Source(w, q, sp.hi[q], Run(cfg, origin, acts).s, a);
    GroundedOne(cfg, origin, w, sp, acts, a);
  }

  /** A processed block's depth was counted from the tip, and it may be the first. */
  lemma BlockCounts(boot: Boot, acts: seq<Act>, b: Block, book: Book, tip: Option<HeadRef>, m: Moment)
    requires m.confirmations == DepthAt(tip, b.number)
    ensures CountsFrom(tip, Processed(b, m)) && Processed(b, m).Processed? && Processed(b, m).b == b
  {
  }

  lemma GroundedWider(cfg: Config, origin: State, w: World, sp: Span, sp': Span, a: seq<Act>, b: seq<Act>)
    requires Grounded(cfg, origin, w, sp, a, b) && sp.fork.None? && sp' == sp.(fork := sp'.fork)
    ensures Grounded(cfg, origin, w, sp', a, b)
  {
    hide Run, GroundedAt;
    GroundedWiden(cfg, origin, w, sp, sp', a, b);
  }

  lemma FirstWider(w: World, q0: Asked, q1: Asked, q2: Asked, fin: nat, floor: nat, fork: Option<nat>)
    requires q0 <= q1 <= q2
    ensures Wider(w, Span(q0, q1, fin, floor, fork), Span(q0, q2, fin, floor, fork))
  {
  }

  /** A block up to a head just delivered was asked for and refused. */
  lemma LiveFaulted(w: World, lo: Asked, hi: Asked, mid: Asked, num: nat, newest: nat, n: nat)
    requires lo + [ForDelivery] <= mid < hi && w.delivery(|lo|) == NewHead(num)
    requires hi[|hi| - 1] == ForBlock(n) && w.block(|hi| - 1, n).None? && newest <= n <= num
    ensures Faulted(w, lo, hi, newest)
  {
    HeardNow(w, lo, hi[..|hi| - 1], num);
    HeardWanted(w, lo, hi, |hi| - 1, num, n);
    BlockFaulted(w, lo, hi, newest, n);
  }

  lemma EmitterKnown(cfg: Config, origin: State, acts: seq<Act>, j: nat)
    requires j < |Run(cfg, origin, acts).evs| && SafeAt(cfg, origin, acts, j)
    ensures j < |Run(cfg, origin, acts).emitters| && Run(cfg, origin, acts).emitters[j] < |acts|
  {
    hide Run;
  }

  lemma BlockPerforms(cfg: Config, s: State, b: Block, m: Moment)
    ensures Perform(cfg, s, Processed(b, m)) == Process(cfg, s, b, m) && FinOf(Processed(b, m)) == m.finalized
  {
  }

  lemma EnteredTop(b: Book, n: nat)
    ensures b.Entered(n).top == if n > b.top then n else b.top
    ensures b.scanned <= b.Entered(n).scanned && b.Entered(n).start == b.start
  {
  }

  lemma ForkActOk(cfg: Config, s: State, ancestor: nat, order: seq<Hash>, now: Time, fin: nat)
    requires Enumerates(order, s.txs.Keys)
    ensures var a := Took(ForkedAt(ancestor, order, now), fin);
            && ActOk(cfg, s, a) && Perform(cfg, s, a) == Lifecycle.OnReorg(s, ancestor, order, now)
            && forall tip: Option<HeadRef> :: CountsFrom(tip, a)
  {
  }

  lemma StillLive(acts: seq<Act>)
    ensures OnlyLive(acts, acts)
  {
  }

  lemma NoticeIsLive(acts: seq<Act>, matches: seq<Match>, now: Time, fin: nat)
    ensures OnlyLive(acts, acts + [Took(SeenPending(matches, now), fin)])
    ensures DeedOf(Took(SeenPending(matches, now), fin)) == OfNotice(matches)
  {
  }

  lemma NoBlocks(lo: nat, hi: nat)
    ensures hi <= lo ==> BlockDeeds(lo, hi) == []
    ensures BlockDeeds(lo, lo) == []
  {
  }

  lemma DeedsJoin(a: seq<Deed>, b: seq<Deed>, c: seq<Deed>)
    ensures a + (b + c) == a + b + c
  {
  }

  lemma TipTaken(tip: Option<HeadRef>, b: Block)
    ensures var tip' := TipMoved(tip, RefOf(b));
            && RefOf(b).number == b.number && tip'.Some? && tip'.value.number == MaxTip(tip, b.number)
            && (tip'.value.number == b.number ==> tip'.value.hash == b.hash)
            && (tip'.value.number > b.number ==> tip' == tip)
  {
  }

  lemma RecordedHas(buf: Headers, depth: nat, h: HeadRef)
    requires depth > 0
    ensures h.number in Recorded(buf, depth, h)
  {
  }

  ghost function MaxTip(tip: Option<HeadRef>, n: nat): nat {
    if tip.Some? && tip.value.number > n then tip.value.number else n
  }

  lemma NoticeGrounded(cfg: Config, origin: State, w: World, sp: Span, acts: seq<Act>, q: nat, a: Act)
    requires AskedAt(sp, q, ForDelivery) && a.Took? && a.i.SeenPending? && a.fin == sp.fin0 && w.delivery(q) == Notice(a.i.matches)
    ensures Grounded(cfg, origin, w, sp, acts, acts + [a])
  {
    hide Run, Grounded;
    assert Source(w, q, sp.hi[q], Run(cfg, origin, acts).s, a);
    GroundedOne(cfg, origin, w, sp, acts, a);
  }

  lemma PendingMovesNothing(s: State, matches: seq<Match>, now: Time)
    ensures var s' := Lifecycle.OnPending(s, matches, now).0;
            forall h :: IsMined(s', h) ==> IsMined(s, h) && s'.txs[h] == s.txs[h]
  {
  }

  // ---------------------------------------------------------------- pieces of the pass

  /** A candidate tracked in the block its check names, which the scan has reached. */
  ghost predicate Checkable(cfg: Config, s: State, c: Check, head: nat, fin: nat, floor: nat) {
    Candidate(cfg, s, c.hash, head, fin) && s.txs[c.hash].block == c.tracked && floor <= s.txs[c.hash].blockNum
  }

  /** No other transaction changed. */
  ghost predicate Untouched(s: State, s': State, hash: Hash) {
    forall h :: h != hash ==> (h in s'.txs <==> h in s.txs) && (h in s.txs ==> s'.txs[h] == s.txs[h])
  }

  ghost predicate DistinctChecks(checks: seq<Check>) {
    forall i, j :: 0 <= i < j < |checks| ==> checks[i].hash != checks[j].hash
  }

  ghost predicate AllCheckable(cfg: Config, s: State, checks: seq<Check>, i: nat, head: nat, fin: nat, floor: nat) {
    forall j :: i <= j < |checks| ==> Checkable(cfg, s, checks[j], head, fin, floor)
  }

  lemma CheckableFacts(cfg: Config, s: State, c: Check, head: nat, fin: nat, floor: nat)
    requires Checkable(cfg, s, c, head, fin, floor)
    ensures IsMined(s, c.hash) && s.txs[c.hash].block == c.tracked && floor <= s.txs[c.hash].blockNum
    ensures Candidate(cfg, s, c.hash, head, fin)
  {
  }

  lemma NextCheckable(cfg: Config, s: State, checks: seq<Check>, i: nat, head: nat, fin: nat, floor: nat)
    requires i < |checks| && AllCheckable(cfg, s, checks, i, head, fin, floor)
    ensures Checkable(cfg, s, checks[i], head, fin, floor)
  {
    hide Checkable;
  }

  lemma {:induction false} ChecksFacts(cfg: Config, s: State, candidates: seq<Hash>, head: nat, fin: nat, floor: nat)
    requires NoDup(candidates) && forall h :: h in candidates ==> Candidate(cfg, s, h, head, fin)
    ensures var checks := ChecksOf(s, candidates, floor);
            && DistinctChecks(checks) && AllCheckable(cfg, s, checks, 0, head, fin, floor)
            && forall j :: 0 <= j < |checks| ==> checks[j].hash in candidates
  {
    hide ConfirmedAt;
    if candidates == [] {
    } else {
      var init := candidates[..|candidates| - 1];
      assert candidates[|candidates| - 1] in candidates;
      forall h | h in init ensures h in candidates && h != candidates[|candidates| - 1] {
        var i :| 0 <= i < |init| && init[i] == h;
        assert candidates[i] == h;
      }
      ChecksFacts(cfg, s, init, head, fin, floor);
    }
  }

  lemma StillCheckable(cfg: Config, s: State, s': State, checks: seq<Check>, i: nat, head: nat, fin: nat, floor: nat)
    requires i < |checks| && Untouched(s, s', checks[i].hash) && DistinctChecks(checks)
    requires AllCheckable(cfg, s, checks, i, head, fin, floor)
    ensures AllCheckable(cfg, s', checks, i + 1, head, fin, floor)
  {
    hide ConfirmedAt;
    forall j | i + 1 <= j < |checks| ensures Checkable(cfg, s', checks[j], head, fin, floor) {
      assert checks[i].hash != checks[j].hash;
      assert Checkable(cfg, s, checks[j], head, fin, floor);
    }
  }

  lemma NoVerdicts(w: World, tip: Option<HeadRef>, q: nat, checks: seq<Check>, head: nat, fin: nat)
    ensures Verdicts(w, tip, q, checks, head, fin, [])
  {
  }

  lemma NoFates(w: World, q: nat, unmined: seq<Hash>, fin: nat)
    ensures Fates(w, q, unmined, fin, [])
  {
  }

  lemma NoPromotions(cfg: Config, origin: State, w: World, tip: Option<HeadRef>, q: nat, hashes: seq<Hash>, fin: nat, acts: seq<Act>)
    ensures Promotions(cfg, origin, w, tip, q, hashes, fin, acts, []) && Unmined(w, q, hashes[..0]) == []
  {
  }

  lemma RefusedNothing(tip: Option<HeadRef>, c: Check, answer: Answer<Receipt>, head: nat, fin: nat, seg: seq<Act>)
    requires answer.Refused? && Verdict(tip, c, answer, head, fin, seg)
    ensures seg == []
  {
  }

  lemma NotPromoted(tip: Option<HeadRef>, s: State, h: Hash, answer: Answer<Receipt>, fin: nat)
    requires answer.NotFound?
    ensures Promotion(tip, s, h, answer, fin, [])
  {
  }

  lemma UnminedGrows(w: World, q: nat, hashes: seq<Hash>, i: nat)
    requires i < |hashes|
    ensures Unmined(w, q, hashes[..i + 1])
         == Unmined(w, q, hashes[..i]) + if w.receipt(q + i, hashes[i]).NotFound? then [hashes[i]] else []
  {
    assert hashes[..i + 1][..i] == hashes[..i];
  }

  /** The two acts of a transaction found in another block. */
  ghost predicate Moved(tip: Option<HeadRef>, c: Check, r: Receipt, fin: nat, seg: seq<Act>) {
    r.blockHash != c.tracked && Verdict(tip, c, Served(r), 0, fin, seg)
  }

  lemma DemotionGrounded(cfg: Config, origin: State, w: World, sp: Span, q: nat, acts: seq<Act>, h: Hash, now: Time, fin: nat)
    requires AskedAt(sp, q, ForReceipt(h)) && fin == sp.fin0
    requires var s := Run(cfg, origin, acts).s;
             && IsMined(s, h) && sp.floor <= s.txs[h].blockNum
             && (w.receipt(q, h).NotFound? || (w.receipt(q, h).Served? && w.receipt(q, h).value.blockHash != s.txs[h].block))
    ensures Grounded(cfg, origin, w, sp, acts, acts + [Took(Demoted(h, now), fin)]) && TookOnly(acts, acts + [Took(Demoted(h, now), fin)])
  {
    hide Run, Grounded;
    assert Source(w, q, sp.hi[q], Run(cfg, origin, acts).s, Took(Demoted(h, now), fin));
    GroundedOne(cfg, origin, w, sp, acts, Took(Demoted(h, now), fin));
  }

  lemma ConfirmationGrounded(cfg: Config, origin: State, w: World, sp: Span, q: nat, acts: seq<Act>, h: Hash, head: nat, fin: nat)
    requires AskedAt(sp, q, ForReceipt(h)) && fin == sp.fin0
    requires var s := Run(cfg, origin, acts).s;
             && IsMined(s, h) && sp.floor <= s.txs[h].blockNum
             && w.receipt(q, h).Served? && w.receipt(q, h).value.blockHash == s.txs[h].block
    ensures Grounded(cfg, origin, w, sp, acts, acts + [Took(Verified(h, head), fin)])
    ensures TookOnly(acts, acts + [Took(Verified(h, head), fin)])
  {
    hide Run, Grounded;
    assert Source(w, q, sp.hi[q], Run(cfg, origin, acts).s, Took(Verified(h, head), fin));
    GroundedOne(cfg, origin, w, sp, acts, Took(Verified(h, head), fin));
  }

  lemma ReceiptGrounded(cfg: Config, origin: State, w: World, sp: Span, acts: seq<Act>, q: nat, a: Act)
    requires a.Took? && a.i.FoundMined? && a.fin == sp.fin0 && AskedAt(sp, q, ForReceipt(a.i.hash))
    requires w.receipt(q, a.i.hash).Served?
    requires var r := w.receipt(q, a.i.hash).value; r.blockHash == a.i.block && r.blockNumber == a.i.blockNum && r.failed == a.i.failed
    ensures Grounded(cfg, origin, w, sp, acts, acts + [a]) && TookOnly(acts, acts + [a])
  {
    hide Run, Grounded;
    assert Source(w, q, sp.hi[q], Run(cfg, origin, acts).s, a);
    GroundedOne(cfg, origin, w, sp, acts, a);
  }

  lemma RecheckGrounded(cfg: Config, origin: State, w: World, sp: Span, acts: seq<Act>, q: nat, a: Act)
    requires a.Took? && a.i.Rechecked? && a.fin == sp.fin0 && AskedAt(sp, q, ForPresence(a.i.hash))
    requires w.presence(q, a.i.hash) == if a.i.stillKnown then InPool else Gone
    ensures Grounded(cfg, origin, w, sp, acts, acts + [a]) && TookOnly(acts, acts + [a])
    ensures Fate(a.i.hash, w.presence(q, a.i.hash), a.fin, [a])
  {
    hide Run, Grounded;
    assert Source(w, q, sp.hi[q], Run(cfg, origin, acts).s, a);
    GroundedOne(cfg, origin, w, sp, acts, a);
  }

  function HashesOf(checks: seq<Check>): (hashes: seq<Hash>)
    ensures |hashes| == |checks| && forall i :: 0 <= i < |checks| ==> hashes[i] == checks[i].hash
  {
    seq(|checks|, i requires 0 <= i < |checks| => checks[i].hash)
  }

  lemma BatchAsked(sp: Span, hashes: seq<Hash>)
    requires sp.hi == sp.lo + ReceiptAsks(hashes)
    ensures sp.lo <= sp.hi && forall i :: 0 <= i < |hashes| ==> AskedAt(sp, |sp.lo| + i, ForReceipt(hashes[i]))
  {
  }

  lemma LookupAsked(sp: Span, hashes: seq<Hash>)
    requires sp.hi == sp.lo + PresenceAsks(hashes)
    ensures sp.lo <= sp.hi && forall i :: 0 <= i < |hashes| ==> AskedAt(sp, |sp.lo| + i, ForPresence(hashes[i]))
  {
  }

  lemma MovedBy(tip: Option<HeadRef>, c: Check, r: Receipt, fin: nat, now: Time, later: Time)
    requires r.blockHash != c.tracked
    ensures Moved(tip, c, r, fin, [Took(Demoted(c.hash, now), fin),
      Took(FoundMined(c.hash, r.blockHash, r.blockNumber, [], r.failed, DepthAt(tip, r.blockNumber), fin, later), fin)])
  {
  }

  lemma MovedVerdict(tip: Option<HeadRef>, c: Check, r: Receipt, head: nat, fin: nat, seg: seq<Act>)
    requires Moved(tip, c, r, fin, seg)
    ensures Verdict(tip, c, Served(r), head, fin, seg)
  {
  }

  lemma SingleVerdicts(tip: Option<HeadRef>, c: Check, r: Receipt, head: nat, fin: nat, now: Time)
    ensures Verdict(tip, c, NotFound, head, fin, [Took(Demoted(c.hash, now), fin)])
    ensures Verdict(tip, c, Refused, head, fin, [])
    ensures r.blockHash == c.tracked ==> Verdict(tip, c, Served(r), head, fin, [Took(Verified(c.hash, head), fin)])
  {
  }

  lemma UntouchedTwice(s: State, s1: State, s2: State, h: Hash)
    requires Untouched(s, s1, h) && Untouched(s1, s2, h)
    ensures Untouched(s, s2, h)
  {
  }

  lemma TookTwice(a: seq<Act>, b: seq<Act>, c: seq<Act>)
    requires TookOnly(a, b) && TookOnly(b, c)
    ensures TookOnly(a, c)
  {
  }

  lemma Promoted(tip: Option<HeadRef>, s: State, h: Hash, r: Receipt, fin: nat, now: Time)
    ensures Promotion(tip, s, h, Served(r), fin, [Took(FoundMined(h, r.blockHash, r.blockNumber, Kept(s, h) + r.legs, r.failed,
                                                                 DepthAt(tip, r.blockNumber), fin, now), fin)])
    ensures Kept(s, h) == if h in s.txs then Natives(s.txs[h].transfers) else []
  {
  }

  lemma ReceiptLegs(w: World, h: Hash, r: Receipt)
    requires WfTree(w.tree) && ReceiptOk(w, h, r)
    ensures LegsOf(r.legs, h)
  {
  }

  function BlankReceipt(): Receipt { Receipt(ZERO_HASH, 0, false, []) }

  lemma PassStopped(cfg: Config, origin: State, w: World, tip: Option<HeadRef>, restored: seq<Hash>, head: nat, floor: nat, fin: nat,
                    q: nat, a: seq<Act>, b: seq<Act>, log: PassLog)
    requires var s := Run(cfg, origin, a).s;
             var checks := ChecksOf(s, log.confirm, floor);
             && NoDup(log.confirm) && (forall h :: h in log.confirm <==> Candidate(cfg, s, h, head, fin))
             && NoDup(log.stale) && (forall h :: h in log.stale <==> Tracking.Stale(cfg, s, h, log.now))
             && ChecksApplied(w, tip, q, checks, head, fin, log.verdicts) && |log.verdicts| < |checks|
    requires log.promotions == [] && log.fates == [] && b == a + Flat(log.verdicts)
    ensures PassOf(cfg, origin, w, tip, restored, head, floor, fin, q, a, b, log, false)
  {
    hide Run, Candidate, Tracking.Stale, ChecksApplied;
  }

  lemma PassDone(cfg: Config, origin: State, w: World, tip: Option<HeadRef>, restored: seq<Hash>, head: nat, floor: nat, fin: nat,
                 q: nat, a: seq<Act>, b: seq<Act>, log: PassLog, ok: bool)
    requires var s := Run(cfg, origin, a).s;
             var checks := ChecksOf(s, log.confirm, floor);
             && NoDup(log.confirm) && (forall h :: h in log.confirm <==> Candidate(cfg, s, h, head, fin))
             && NoDup(log.stale) && (forall h :: h in log.stale <==> Tracking.Stale(cfg, s, h, log.now))
             && ChecksApplied(w, tip, q, checks, head, fin, log.verdicts) && |log.verdicts| == |checks|
             && RecheckOf(cfg, origin, w, tip, q + |checks|, log.stale + Unlisted(restored, log.stale), fin,
                          a + Flat(log.verdicts), b, log.promotions, log.fates, ok)
    ensures PassOf(cfg, origin, w, tip, restored, head, floor, fin, q, a, b, log, ok)
  {
    hide Run, Candidate, Tracking.Stale, ChecksApplied, RecheckOf;
  }

  lemma RecheckStopped(cfg: Config, origin: State, w: World, tip: Option<HeadRef>, q: nat, hashes: seq<Hash>, fin: nat,
                       a: seq<Act>, b: seq<Act>, promotions: seq<seq<Act>>)
    requires b == a + Flat(promotions) && |promotions| < |hashes|
    requires PromotionsApplied(cfg, origin, w, tip, q, hashes, fin, a, promotions)
    ensures RecheckOf(cfg, origin, w, tip, q, hashes, fin, a, b, promotions, [], false)
  {
    hide PromotionsApplied;
  }

  lemma RecheckDone(cfg: Config, origin: State, w: World, tip: Option<HeadRef>, q: nat, hashes: seq<Hash>, fin: nat,
                    a: seq<Act>, b: seq<Act>, promotions: seq<seq<Act>>, fates: seq<seq<Act>>, ok: bool)
    requires b == a + Flat(promotions) + Flat(fates) && |promotions| == |hashes|
    requires PromotionsApplied(cfg, origin, w, tip, q, hashes, fin, a, promotions)
    requires FatesApplied(w, q + |hashes|, Unmined(w, q, hashes), fin, fates) && (ok <==> |fates| == |Unmined(w, q, hashes)|)
    ensures RecheckOf(cfg, origin, w, tip, q, hashes, fin, a, b, promotions, fates, ok)
  {
    hide PromotionsApplied, FatesApplied;
  }

  lemma RefreshedKnown(cfg: Config, w: World, lo: Asked, hi: Asked, fin: nat, floor: nat)
    requires lo + Refreshing(cfg) <= hi && (!cfg.tagMode ==> fin == 0)
    ensures lo <= hi && Known(w, lo, hi, fin, Refreshed(cfg, w, |lo|, fin))
    ensures Wider(w, Span(lo + Refreshing(cfg), hi, Refreshed(cfg, w, |lo|, fin), floor, None), Span(lo, hi, fin, floor, None))
  {
    if cfg.tagMode { assert hi[|lo|] == ForFinality; }
  }

  lemma WiderHalves(w: World, lo: Asked, mid: Asked, hi: Asked, fin: nat, floor: nat)
    requires lo <= mid <= hi
    ensures Wider(w, Span(lo, mid, fin, floor, None), Span(lo, hi, fin, floor, None))
    ensures Wider(w, Span(mid, hi, fin, floor, None), Span(lo, hi, fin, floor, None))
  {
  }

  lemma DemoteOthers(s: State, hash: Hash, now: Time)
    ensures Untouched(s, Lifecycle.Demote(s, hash, now).0, hash)
  {
  }

  lemma ConfirmOthers(cfg: Config, s: State, hash: Hash, head: nat, fin: nat)
    ensures Untouched(s, Lifecycle.Confirm(s, hash, head).0, hash)
  {
    hide Tombstones.Bury;
  }

  lemma MinedOthers(cfg: Config, s: State, hash: Hash, r: Receipt, transfers: seq<Match>, confirmations: nat, fin: nat, now: Time)
    requires Inv(s) && LegsOf(transfers, hash)
    ensures Untouched(s, OnMined(cfg, s, hash, r.blockHash, r.blockNumber, transfers, r.failed, confirmations, fin, now).0, hash)
  {
    hide Inv, OnMined;
    OnMinedIsolated(cfg, s, hash, BlockAt(r), transfers, r.failed, Moment(confirmations, fin, now));
  }

  lemma NativeLegsOwn(s: State, hash: Hash)
    requires Inv(s)
    ensures LegsOf(Kept(s, hash), hash)
  {
    hide Tombstones.Valid, NonceExact, Graves;
    if hash in s.txs {
      assert TxOk(hash, s.txs[hash]);
      NativesOwn(s.txs[hash].transfers, hash);
    }
  }

  lemma {:induction false} NativesOwn(legs: seq<Match>, hash: Hash)
    requires LegsOf(legs, hash)
    ensures LegsOf(Natives(legs), hash)
  {
    if legs == [] {
    } else {
      NativesOwn(legs[..|legs| - 1], hash);
    }
  }

  lemma LegsConcat(a: seq<Match>, b: seq<Match>, hash: Hash)
    requires LegsOf(a, hash) && LegsOf(b, hash)
    ensures LegsOf(a + b, hash)
  {
  }

  // ---------------------------------------------------------------- pieces of a head's treatment

  function NoPass(): PassLog { PassLog([], [], 0, [], [], []) }

  lemma ForkedBooks(b: Book, fork: nat)
    ensures b.Forked(fork).top == fork && b.Forked(fork).base == fork && b.Forked(fork).since == {}
  {
  }

  /** The books of an extend step: the fork point is the parent, and the very first block starts them. */
  ghost function ExtendBook(b: Book, first: bool, number: nat, scanned: bool): Book
  {
    var b1 := (if first then b.(start := number) else b).Anchored(if number > 0 then number - 1 else 0);
    if scanned then b1.Entered(number) else b1
  }

  lemma ExtendBooks(b: Book, first: bool, last: nat, number: nat)
    requires number > 0
    ensures var b1, b2 := ExtendBook(b, first, number, false), ExtendBook(b, first, number, true);
            && b1.log == b.log && b1.scanned == b.scanned && b1.start == (if first then number else b.start)
            && b2.log == b.log + [number] && b2.top == number && b2.base == number - 1 && number in b2.since
            && (!first && b.NoGap(last) ==> b1.NoGap(last))
            && (first || (b.NoGap(last) && number <= last + 1) ==> b2.NoGap(number))
  {
  }

  lemma StartsAt(b: Book, first: bool, number: nat)
    ensures var b1 := ExtendBook(b, first, number, false);
            b1.log == b.log && b1.scanned == b.scanned && b1.start == (if first then number else b.start)
    ensures ExtendBook(b, first, number, true) == ExtendBook(b, first, number, false).Entered(number)
  {
  }

  lemma TipRises(tip: Option<HeadRef>, number: nat)
    requires tip.Some? ==> tip.value.number <= number
    ensures MaxTip(tip, number) == number
  {
  }

  lemma NothingBelow(b: Book, lo: nat, hi: nat)
    ensures hi <= lo ==> b.EnteredUpward(lo, hi) == b
  {
  }

  lemma StillFell(b: Shot, acts: seq<Act>, acts': seq<Act>, fork: nat)
    requires FellTo(b, acts, fork) && acts <= acts'
    ensures FellTo(b, acts', fork)
  {
  }

  lemma AgreesKnown(buf: Headers, remote: Remote, n: nat)
    requires Agrees(buf, remote, n)
    ensures n in buf
  {
  }

  /** After a rewind only what was mined at or below the ancestor still is. */
  lemma ReorgLeaves(s: State, s': State, ancestor: nat, now: Time)
    requires s'.txs.Keys == s.txs.Keys
    requires forall h :: h in s.txs ==> s'.txs[h] == if Reverted(s, ancestor, h) then BackToMempool(s.txs[h], now) else s.txs[h]
    ensures forall h :: IsMined(s', h) ==> IsMined(s, h) && s'.txs[h] == s.txs[h] && s'.txs[h].blockNum <= ancestor
  {
  }

  /** At a fork both chains agree on, the books start over with everything still tracked on the node's chain. */
  lemma ForkMid(w: World, s: State, s': State, buf: Headers, r: HeadRef, fork: nat)
    requires WorldOk(w) && w.steady && Canonical(w.tree, s, buf, Some(r))
    requires fork <= r.number && Agrees(buf, w.remote, fork)
    requires forall h :: IsMined(s', h) ==> IsMined(s, h) && s'.txs[h] == s.txs[h] && s'.txs[h].blockNum <= fork
    ensures TxsOn(w.tree, w.canon, s', fork) && HeadersOn(w.tree, w.canon, buf, fork, {})
  {
    assert On(w.tree, r.hash, fork, buf[fork].hash);
    assert On(w.tree, w.canon, fork, buf[fork].hash);
    CanonicalOn(w.tree, w.canon, s, buf, r, fork);
  }

  lemma NoticeKeeps(t: Tree, s: State, s': State, buf: Headers, tip: Option<HeadRef>)
    requires WfTree(t) && Canonical(t, s, buf, tip)
    requires forall h :: IsMined(s', h) ==> IsMined(s, h) && s'.txs[h] == s.txs[h]
    ensures Canonical(t, s', buf, tip)
  {
  }

  lemma CanonicalPlaced(w: World, s: State, s': State, buf: Headers, r: HeadRef)
    requires WfTree(w.tree) && Canonical(w.tree, s, buf, Some(r)) && On(w.tree, w.canon, r.number, r.hash)
    requires Placed(w, s, s', w.head.number) && w.head.number <= r.number
    ensures Canonical(w.tree, s', buf, Some(r))
  {
    TipMid(w, s, buf, r);
    PlacedOn(w, s, s', w.head.number, r.number);
    CanonicalAt(w.tree, w.canon, s', buf, r, r.number, {});
  }

  /** The parent of a block of the chain is a block of the chain: everything below the tip carries over. */
  lemma ExtendMid(w: World, s: State, buf: Headers, tip: Option<HeadRef>)
    requires WorldOk(w) && w.steady && Canonical(w.tree, s, buf, tip)
    requires tip.Some? ==> w.head.number == tip.value.number + 1 && w.head.parent == tip.value.hash
    ensures TxsOn(w.tree, w.canon, s, w.head.number - 1) && HeadersOn(w.tree, w.canon, buf, w.head.number - 1, {})
  {
    WorldHead(w);
    if tip.Some? {
      AncParent(w.tree, w.canon, w.head.number);
      TipMid(w, s, buf, tip.value);
    }
  }

  lemma TipMid(w: World, s: State, buf: Headers, r: HeadRef)
    requires WfTree(w.tree) && Canonical(w.tree, s, buf, Some(r)) && On(w.tree, w.canon, r.number, r.hash)
    ensures TxsOn(w.tree, w.canon, s, r.number) && HeadersOn(w.tree, w.canon, buf, r.number, {})
  {
    CanonicalOn(w.tree, w.canon, s, buf, r, r.number);
  }

  /** A head that was handled left the tip no lower than itself, unless the reorg was deep. */
  lemma Reaches(cfg: Config, origin: State, w: World, b: Shot, m: Shot, kind: HeadKind, deep: bool, trail: Trail)
    requires Treated(cfg, origin, w, b, m, kind, deep, true, trail) && !kind.Stale? && !deep
    ensures m.tip.Some? && w.head.number <= m.last == m.tip.value.number
  {
    hide Grounded, Walk, Run, Known, ExactlyOnce;
  }

  lemma ReportsSnoc(cfg: Config, origin: State, boot: Boot, steps: seq<DispatchStep>, reports: seq<Report>, step: DispatchStep, r: Report)
    requires AllExplained(cfg, origin, boot, steps, reports) && Explained(cfg, origin, boot, step, r)
    ensures AllExplained(cfg, origin, boot, steps + [step], reports + [r])
    ensures AllClean(steps + [step], reports + [r]) ==> AllClean(steps, reports) && Clean(step, r)
    ensures AllGuarded(reports + [r]) ==> AllGuarded(reports) && Guarded(r)
  {
    hide Explained, Clean, Guarded;
    var n := |reports|;
    assert (reports + [r])[n] == r && (steps + [step])[n] == step;
    assert forall i :: 0 <= i < n ==> (reports + [r])[i] == reports[i] && (steps + [step])[i] == steps[i];
  }
}
