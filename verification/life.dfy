/**
 The dispatch loop and the database together: a journal whose inputs' events are persisted, each as one batch, is a
 life of the restart mirror, and goes on from any life before it, restarts included.
 */
module Lives {
  import opened Types
  import opened Lifecycle
  import opened Storage
  import opened Journal
  import opened Mirror

  /** The events of input `k` were persisted as one batch. */
  ghost predicate PersistedAt(cfg: Config, indexer: nat, origin: State, inputs: seq<Input>, rows: seq<map<RowKey, Row>>,
                              nows: seq<Time>, k: nat)
    requires k < |inputs| == |nows| && |rows| == |inputs| + 1
  {
    BatchPersisted(rows[k], rows[k + 1], indexer, Feed(cfg, origin, inputs[..k + 1]).0,
                   Step(cfg, Feed(cfg, origin, inputs[..k]).0, inputs[k]).1, nows[k])
  }

  /** The table around each input of a run, and the instants its batches were written at. */
  ghost predicate PersistedRun(cfg: Config, indexer: nat, origin: State, inputs: seq<Input>, rows: seq<map<RowKey, Row>>, nows: seq<Time>) {
    && |inputs| == |nows| && |rows| == |inputs| + 1
    && forall k :: 0 <= k < |inputs| ==> PersistedAt(cfg, indexer, origin, inputs, rows, nows, k)
  }

  ghost predicate AllDistinct(inputs: seq<Input>) {
    forall k :: 0 <= k < |inputs| ==> DistinctInput(inputs[k])
  }

  ghost function TurnsOf(inputs: seq<Input>, nows: seq<Time>): seq<Turn>
    requires |nows| == |inputs|
  {
    seq(|inputs|, k requires 0 <= k < |inputs| => Fed(inputs[k], nows[k]))
  }

  /** Where each input leaves the tracker and the table. */
  ghost function StagesOf(cfg: Config, origin: State, inputs: seq<Input>, rows: seq<map<RowKey, Row>>): seq<Stage>
    requires |rows| == |inputs| + 1
  {
    seq(|inputs|, k requires 0 <= k < |inputs| => Stage(Feed(cfg, origin, inputs[..k + 1]).0, rows[k + 1]))
  }

  lemma FeedGrows(cfg: Config, s: State, inputs: seq<Input>, k: nat)
    requires k < |inputs|
    ensures Feed(cfg, s, inputs[..k + 1]).0 == Step(cfg, Feed(cfg, s, inputs[..k]).0, inputs[k]).0
  {
    hide Step;
    assert inputs[..k + 1][..k] == inputs[..k];
  }

  /** One more input continues a life. */
  lemma TurnFollows(cfg: Config, indexer: nat, origin: State, inputs: seq<Input>, rows: seq<map<RowKey, Row>>, nows: seq<Time>, k: nat)
    requires Feedable(cfg, origin, inputs) && AllDistinct(inputs) && PersistedRun(cfg, indexer, origin, inputs, rows, nows)
    requires k < |inputs|
    ensures Follows(cfg, indexer, Stage(Feed(cfg, origin, inputs[..k]).0, rows[k]), Fed(inputs[k], nows[k]),
                    Stage(Feed(cfg, origin, inputs[..k + 1]).0, rows[k + 1]))
  {
    hide Feed, Step, WellFormed, DistinctInput, BatchPersisted;
    FeedGrows(cfg, origin, inputs, k);
    assert PersistedAt(cfg, indexer, origin, inputs, rows, nows, k);
  }

  lemma LifeGoesOn(cfg: Config, indexer: nat, turns: seq<Turn>, stages: seq<Stage>, inputs: seq<Input>,
                   rows: seq<map<RowKey, Row>>, nows: seq<Time>)
    requires Life(cfg, indexer, turns, stages) && Feedable(cfg, stages[|turns|].s, inputs) && AllDistinct(inputs)
    requires PersistedRun(cfg, indexer, stages[|turns|].s, inputs, rows, nows) && rows[0] == stages[|turns|].rows
    ensures Life(cfg, indexer, turns + TurnsOf(inputs, nows), stages + StagesOf(cfg, stages[|turns|].s, inputs, rows))
  {
    hide Follows, HasActive, Feed, Feedable, PersistedAt;
    var origin, n := stages[|turns|].s, |turns|;
    var ts, ss := turns + TurnsOf(inputs, nows), stages + StagesOf(cfg, origin, inputs, rows);
    FeedStart(cfg, origin, inputs);
    forall k | 0 <= k < |ts| ensures Follows(cfg, indexer, ss[k], ts[k], ss[k + 1]) {
      if k < n {
        assert ss[k] == stages[k] && ss[k + 1] == stages[k + 1] && ts[k] == turns[k];
      } else {
        var i := k - n;
        TurnFollows(cfg, indexer, origin, inputs, rows, nows, i);
        assert ts[k] == Fed(inputs[i], nows[i]);
        assert ss[k + 1] == Stage(Feed(cfg, origin, inputs[..i + 1]).0, rows[i + 1]);
        assert ss[k] == Stage(Feed(cfg, origin, inputs[..i]).0, rows[i]);
      }
    }
  }

  lemma FeedStart(cfg: Config, s: State, inputs: seq<Input>)
    ensures Feed(cfg, s, inputs[..0]).0 == s && inputs[..|inputs|] == inputs
  {
  }

  /**
   A lawful journal with distinct legs, begun where a life stands and persisted input by input, continues that
   life; so the table mirrors the tracked state at its end.
   */
  lemma JournalIsALife(cfg: Config, indexer: nat, turns: seq<Turn>, stages: seq<Stage>, acts: seq<Act>,
                       rows: seq<map<RowKey, Row>>, nows: seq<Time>)
    requires Life(cfg, indexer, turns, stages) && Lawful(cfg, stages[|turns|].s, acts)
    requires AllDistinct(AllInputs(cfg, stages[|turns|].s, acts))
    requires PersistedRun(cfg, indexer, stages[|turns|].s, AllInputs(cfg, stages[|turns|].s, acts), rows, nows)
    requires rows[0] == stages[|turns|].rows
    ensures var origin := stages[|turns|].s;
            var inputs := AllInputs(cfg, origin, acts);
            && Life(cfg, indexer, turns + TurnsOf(inputs, nows), stages + StagesOf(cfg, origin, inputs, rows))
            && Feed(cfg, origin, inputs) == (Run(cfg, origin, acts).s, Run(cfg, origin, acts).evs)
            && Agree(rows[|inputs|], indexer, Run(cfg, origin, acts).s)
  {
    hide Follows, HasActive, Feed, Feedable, PersistedAt, Agree, Orphan, Run, AllInputs, DistinctInput;
    var origin, n := stages[|turns|].s, |turns|;
    var inputs := AllInputs(cfg, origin, acts);
    JournalFeeds(cfg, origin, acts);
    FeedStart(cfg, origin, inputs);
    LifeGoesOn(cfg, indexer, turns, stages, inputs, rows, nows);
    var ts, ss := turns + TurnsOf(inputs, nows), stages + StagesOf(cfg, origin, inputs, rows);
    EveryLife(cfg, indexer, ts, ss, |ts|);
    if inputs == [] {
      assert ss[|ts|] == stages[n];
    } else {
      assert ss[|ts|] == Stage(Feed(cfg, origin, inputs[..|inputs| - 1 + 1]).0, rows[|inputs|]);
    }
  }
}
