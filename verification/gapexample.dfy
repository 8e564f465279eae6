/**
 A gap that strands an inclusion, as a complete run: the transaction is in block 20, the next head heard of is
 41 on the sibling branch 21, 31, 41, and the catch-up succeeds without moving it.
 */
module GapExample {
  import opened Types
  import opened Lifecycle
  import opened Invariant
  import opened Effects
  import opened Blocks
  import opened Chain
  import opened Ancestry
  import opened Books
  import opened Journal
  import opened Film
  import opened Nodes
  import opened Passes
  import opened Heads
  import Tracking
  import Indexing

  const CFG: Config := Config(false, 12, 0)
  const DEPTH: nat := 16
  const BOOT: Boot := Boot(None, [])
  const LEG: Match := Match(7, 1, 2, Direction.In, "ETH", None, 18, 5, None, 1, 0)
  const B20: Block := Block(20, 2, 10, [], [MinedTx(7, [LEG], false)], map[])
  const B31: Block := Block(31, 3, 21, [], [], map[])
  const B41: Block := Block(41, 4, 31, [], [], map[])
  const P20: Act := Processed(B20, Moment(1, 0, 112))
  const P41: Act := Processed(B41, Moment(1, 0, 160))
  const P31: Act := Processed(B31, Moment(2, 0, 160))

  /** Block 10 at height 1, and two branches above it. */
  function Fork(h: Hash): HeadRef {
    if h == 10 then HeadRef(1, 10, 1)
    else if h == 20 || h == 21 then HeadRef(2, h, 10)
    else if h == 31 then HeadRef(3, 31, 21)
    else if h == 41 then HeadRef(4, 41, 31)
    else HeadRef(0, h, 1)
  }

  /** A steady node on the branch of 41: it serves the announced head and block 3, and nothing else comes in. */
  const NODE: World := World(
    Fork, 41, HeadRef(4, 41, 31), true,
    Remote(n => Missing(0), i => None),
    q => Some(B41),
    (q, n) => if n == 3 then Some(B31) else None,
    (q, h) => NotFound,
    (q, h) => Unclear,
    q => None,
    q => 0,
    q => Notice([]))

  ghost function After(acts: seq<Act>): State { Run(CFG, FRESH, acts).s }

  ghost function RingOf(acts: seq<Act>): Headers { RecordedAll(DEPTH, BOOT.headers + Refs(acts)) }

  const BOOK20: Book := Book(2, {2}, [2], 0, {2}, 2)
  const BOOK41: Book := Book(2, {2, 4}, [2, 4], 0, {2, 4}, 4)
  const BOOK31: Book := Book(2, {2, 4, 3}, [2, 4, 3], 0, {2, 4, 3}, 4)

  ghost function Before(): Shot {
    Shot(After([P20]), RingOf([P20]), DEPTH, Some(RefOf(B20)), 2, 0, [], BOOK20, [P20], [])
  }

  ghost function BegunAt(): Shot {
    Shot(After([P20, P41]), RingOf([P20, P41]), DEPTH, Some(RefOf(B41)), 2, 0, [], BOOK41, [P20, P41], [ForHead])
  }

  ghost function Ended(): Shot {
    Shot(After([P20, P41, P31]), RingOf([P20, P41, P31]), DEPTH, Some(RefOf(B41)), 2, 0, [], BOOK31, [P20, P41, P31],
         [ForHead, ForBlock(3)])
  }

  ghost function OnlyLeg(): Leg {
    Leg(BegunAt(), BegunAt().(asked := [ForHead, ForBlock(3)]), P31.m, Ended(), Indexing.NoPass())
  }

  // ---------------------------------------------------------------- the node and the states

  lemma NodeOk()
    ensures WorldOk(NODE)
  {
    assert WfTree(Fork);
    assert Anc(Fork, 41, 3) == Anc(Fork, 31, 3) == 31;
    assert On(Fork, 41, 4, 41) && On(Fork, 41, 3, 31);
  }

  lemma EmptyBlock(s: State, b: Block, m: Moment)
    requires b.mined == [] && b.txs == []
    ensures Process(CFG, s, b, m) == (s, [])
  {
    assert AfterMined(CFG, s, b, 0, m) == (s, []) && AfterResolved(CFG, s, b, 0, m) == (s, []) && AfterConsumed(s, b, 0) == (s, []);
    var none: seq<Event> := [];
    assert none + none + none == none;
  }

  /** Only transaction 7 is tracked, in block 20. */
  ghost predicate Stays(s: State) {
    IsMined(s, 7) && s.txs[7].block == 20 && s.txs[7].blockNum == 2 && forall h :: h in s.txs ==> h == 7
  }

  lemma FirstBlock()
    ensures Stays(Process(CFG, FRESH, B20, P20.m).0)
  {
    hide Tombstones.Clear, Tombstones.Bury;
    assert B20.mined[0] == MinedTx(7, [LEG], false);
    assert AfterMined(CFG, FRESH, B20, 0, P20.m) == (FRESH, []);
    var s1 := AfterMined(CFG, FRESH, B20, 1, P20.m).0;
    assert s1 == OnMined(CFG, FRESH, 7, 20, 2, [LEG], false, 1, 0, 112).0;
    assert Stays(s1);
    assert AfterResolved(CFG, s1, B20, 0, P20.m) == (s1, []);
    assert AfterConsumed(s1, B20, 0) == (s1, []);
  }

  lemma States()
    ensures Inv(FRESH) && Lawful(CFG, FRESH, [P20, P41, P31])
    ensures Stays(After([P20])) && After([P20, P41]) == After([P20]) && After([P20, P41, P31]) == After([P20])
  {
    hide Process, Lawful, Run, Inv;
    Indexing.FreshOk();
    FirstBlock();
    Indexing.NothingTold(CFG, FRESH);
    assert [] + [P20] == [P20] && [P20] + [P41] == [P20, P41] && [P20, P41] + [P31] == [P20, P41, P31];
    RunSnoc(CFG, FRESH, [], P20);
    RunSnoc(CFG, FRESH, [P20], P41);
    RunSnoc(CFG, FRESH, [P20, P41], P31);
    EmptyBlock(After([P20]), B41, P41.m);
    EmptyBlock(After([P20]), B31, P31.m);
    LawfulSnoc(CFG, FRESH, [], P20);
    LawfulSnoc(CFG, FRESH, [P20], P41);
    LawfulSnoc(CFG, FRESH, [P20, P41], P31);
  }

  lemma FilmedFirst()
    ensures FilmOf(BOOT, DEPTH, [P20], [RefOf(B20)], Some(RefOf(B20)), BOOK20)
  {
    hide FilmOf, Refs, ScannedOf, TipOf, DepthTrue;
    var empty := Book(2, {}, [], 0, {}, 0);
    NothingFilmed(BOOT, DEPTH);
    FilmRebooked(BOOT, DEPTH, [], [], None, Book(StartOf(BOOT, []), {}, [], 0, {}, 0), empty);
    FilmProcessed(BOOT, DEPTH, [], [], None, empty, P20);
    assert [] + [P20] == [P20] && [] + [RefOf(B20)] == [RefOf(B20)] && empty.Entered(2) == BOOK20;
  }

  lemma FilmedNext(acts: seq<Act>, recorded: seq<HeadRef>, tip: Option<HeadRef>, book: Book, a: Act)
    requires FilmOf(BOOT, DEPTH, acts, recorded, tip, book) && book.log != [] && a.Processed? && CountsFrom(tip, a)
    ensures FilmOf(BOOT, DEPTH, acts + [a], recorded + [RefOf(a.b)], TipMoved(tip, RefOf(a.b)), book.Entered(a.b.number))
  {
    hide FilmOf;
    FilmStart(BOOT, acts, recorded, tip, book);
    FilmProcessed(BOOT, DEPTH, acts, recorded, tip, book, a);
  }

  lemma Filmed()
    ensures FilmOf(BOOT, DEPTH, [P20], BOOT.headers + Refs([P20]), Some(RefOf(B20)), BOOK20)
    ensures FilmOf(BOOT, DEPTH, [P20, P41, P31], BOOT.headers + Refs([P20, P41, P31]), Some(RefOf(B41)), BOOK31)
    ensures Refs([P20]) == [RefOf(B20)]
  {
    hide FilmOf, Refs, StartKnown;
    var r20, r41, r31 := RefOf(B20), RefOf(B41), RefOf(B31);
    FilmedFirst();
    FilmStart(BOOT, [P20], [r20], Some(r20), BOOK20);
    FilmedNext([P20], [r20], Some(r20), BOOK20, P41);
    assert [P20] + [P41] == [P20, P41] && [r20] + [r41] == [r20, r41] && BOOK20.Entered(4) == BOOK41;
    FilmedNext([P20, P41], [r20, r41], Some(r41), BOOK41, P31);
    assert [P20, P41] + [P31] == [P20, P41, P31] && [r20, r41] + [r31] == [r20, r41, r31] && BOOK41.Entered(3) == BOOK31;
    FilmStart(BOOT, [P20, P41, P31], [r20, r41, r31], Some(r41), BOOK31);
  }

  lemma FilmStart(boot: Boot, acts: seq<Act>, recorded: seq<HeadRef>, tip: Option<HeadRef>, book: Book)
    requires FilmOf(boot, DEPTH, acts, recorded, tip, book) && book.log != []
    ensures StartKnown(boot, acts) && recorded == boot.headers + Refs(acts)
    ensures boot.headers == [] ==> Refs(acts) == recorded
  {
    hide TipOf, DepthTrue, ScannedOf;
  }

  // ---------------------------------------------------------------- the catch-up

  lemma NothingDue(s: State)
    requires Stays(s)
    ensures forall h :: !Tracking.Candidate(CFG, s, h, 4, 0) && !Tracking.Stale(CFG, s, h, 0)
  {
  }

  lemma NothingToDo(acts: seq<Act>)
    requires Stays(After(acts))
    ensures PassOf(CFG, FRESH, NODE, Some(RefOf(B41)), [], 4, 3, 0, 2, acts, acts, Indexing.NoPass(), true)
  {
    hide Run, Tracking.Candidate, Tracking.Stale;
    NothingDue(After(acts));
    assert Flat([]) == [] && acts + [] == acts && acts + [] + [] == acts;
    assert Unmined(NODE, 2, []) == [] && Unlisted([], []) == [];
  }

  lemma LegIs()
    ensures LegRun(CFG, FRESH, NODE, 3, OnlyLeg(), true)
  {
    hide Run, RecordedAll, PassOf, Drained, DrainedDeeds, Did, LegRun, Book.EnteredUpward, Stays, Lawful, Inv, Refs;
    States();
    assert [P20, P41] + [P31] == [P20, P41, P31];
    NothingToDo([P20, P41, P31]);
    assert [ForHead, ForBlock(3)] + [] == [ForHead, ForBlock(3)];
    DrainedStep(NODE, 2, 0, 4);
    DeedsStep(NODE, 2, 0, 4, []);
    assert [] + DrainedDeeds(NODE, 2, 0, 4) == DrainedDeeds(NODE, 2, 0, 4);
    DidNothing([P20, P41]);
    NothingUp(BOOK41, 5);
    LegIsRun(CFG, FRESH, NODE, 3, OnlyLeg(), Some(B31), true);
  }

  lemma Acts()
    ensures Grounded(CFG, FRESH, NODE, Span([], [ForHead, ForBlock(3)], 0, 3, None), [P20], [P20, P41, P31])
  {
    var sp := Span([], [ForHead, ForBlock(3)], 0, 3, None);
    hide Run;
    assert [P20] + [P41] == [P20, P41] && [P20, P41] + [P31] == [P20, P41, P31];
    assert Source(NODE, 0, sp.hi[0], After([P20]), P41) && Source(NODE, 1, sp.hi[1], After([P20, P41]), P31);
    GroundedOne(CFG, FRESH, NODE, sp, [P20], P41);
    GroundedOne(CFG, FRESH, NODE, sp, [P20, P41], P31);
    GroundedJoin(CFG, FRESH, NODE, sp, [P20], [P20, P41], [P20, P41, P31]);
  }

  lemma GapIsClosed()
    ensures Treated(CFG, FRESH, NODE, Before(), Ended().(last := 4), Gap, false, true, Trail(BegunAt(), [OnlyLeg()], OnlyLeg()))
  {
    hide Run, RecordedAll, LegRun, Grounded;
    var b, m, t := Before(), Ended().(last := 4), Trail(BegunAt(), [OnlyLeg()], OnlyLeg());
    Acts();
    LegIs();
    NotBacked(CFG, FRESH, NODE, BegunAt(), 4);
    BackedSnoc(CFG, FRESH, NODE, [], BegunAt(), OnlyLeg(), 4);
    assert [] + [OnlyLeg()] == [OnlyLeg()] && m.(last := 2) == Ended();
    assert [P20] + [P41] == [P20, P41] && [] + [ForHead] == [ForHead];
    assert m.book.log[1..] == [4, 3];
    assert ExactlyOnce([4, 3], 3, 4);
  }

  lemma Starts()
    ensures Canonical(Fork, After([P20]), RingOf([P20]), Some(RefOf(B20)))
  {
    hide Run;
    States();
    Filmed();
    assert [] + [RefOf(B20)] == [RefOf(B20)] && [RefOf(B20)][..0] == [];
    assert RecordedAll(DEPTH, []) == map[];
    assert RingOf([P20]) == map[2 := RefOf(B20)];
  }

  /** Everything `GapNeedsLink` speaks of holds, and the inclusion stays off the node's chain. */
  lemma GapStrands()
    ensures WorldOk(NODE) && NODE.steady && Inv(FRESH) && Lawful(CFG, FRESH, Ended().acts)
    ensures Shown(CFG, FRESH, BOOT, Before()) && Shown(CFG, FRESH, BOOT, Ended().(last := 4))
    ensures Treated(CFG, FRESH, NODE, Before(), Ended().(last := 4), Gap, false, true, Trail(BegunAt(), [OnlyLeg()], OnlyLeg()))
    ensures Canonical(Fork, Before().s, Before().buf, Before().tip) && LevelAt(Before().tip, Before().last)
    ensures IsMined(Ended().s, 7) && !On(Fork, NODE.canon, Ended().s.txs[7].blockNum, Ended().s.txs[7].block)
  {
    hide Run, RecordedAll, Treated, Inv, Lawful, WorldOk, FilmOf, Canonical;
    NodeOk();
    WorldTree(NODE);
    States();
    Filmed();
    GapIsClosed();
    Starts();
    assert Anc(Fork, 41, 2) == Anc(Fork, 31, 2) == Anc(Fork, 21, 2) == 21;
  }
}
