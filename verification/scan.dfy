/**
 Scanning one block for watched activity, and the three places its Transfer logs can come from: the
 server-side topic filters queried for this block, a range query grouped by block, and the block's receipts.

 The node is its list of logs in chain order. `Select` is what eth_getLogs promises of it.
 */
module Scanning {
  import opened Types
  import opened Matching
  import opened Lifecycle
  import Blocks
  import Invariant
  import Tracking

  const SERVER_FILTER_MAX_ADDRESSES: nat := 1000

  // ---------------------------------------------------------------- the node's logs

  /** The accepted topics at one position; an empty set accepts any. */
  type Accepted = set<Hash>

  predicate TopicsPass(filter: seq<Accepted>, topics: seq<Hash>) {
    && |filter| <= |topics|
    && forall i :: 0 <= i < |filter| ==> filter[i] == {} || topics[i] in filter[i]
  }

  predicate Passes(m: Matcher, filter: seq<Accepted>, lo: nat, hi: nat, lg: Log) {
    lo <= lg.blockNumber <= hi && lg.address in m.tokens && TopicsPass(filter, lg.topics)
  }

  /** The answer to one eth_getLogs query. */
  function Select(m: Matcher, filter: seq<Accepted>, lo: nat, hi: nat, logs: seq<Log>): seq<Log> {
    if logs == [] then []
    else Select(m, filter, lo, hi, logs[..|logs| - 1])
         + if Passes(m, filter, lo, hi, logs[|logs| - 1]) then [logs[|logs| - 1]] else []
  }

  function OfBlock(logs: seq<Log>, n: nat): seq<Log> {
    if logs == [] then []
    else OfBlock(logs[..|logs| - 1], n) + if logs[|logs| - 1].blockNumber == n then [logs[|logs| - 1]] else []
  }

  /** A log's position on the chain. */
  datatype LogKey = LogKey(block: nat, index: nat)

  function KeyOf(lg: Log): LogKey { LogKey(lg.blockNumber, lg.index) }

  /** No two logs share a position. */
  ghost predicate Distinct(logs: seq<Log>) {
    forall i, j :: 0 <= i < j < |logs| ==> logs[i].blockNumber != logs[j].blockNumber || logs[i].index != logs[j].index
  }

  /** The first log at each position, in order. */
  function Dedup(logs: seq<Log>): seq<Log> {
    if logs == [] then []
    else Dedup(logs[..|logs| - 1])
         + if SeenKey(logs[..|logs| - 1], KeyOf(logs[|logs| - 1])) then [] else [logs[|logs| - 1]]
  }

  predicate SeenKey(logs: seq<Log>, key: LogKey) {
    exists i :: 0 <= i < |logs| && KeyOf(logs[i]) == key
  }

  // ---------------------------------------------------------------- queries

  /** Incoming and outgoing transfers, or every transfer when there are too many addresses to list. */
  function TransferTopicFilters(m: Matcher): seq<seq<Accepted>> {
    if |m.watched| > SERVER_FILTER_MAX_ADDRESSES then [[{TRANSFER_TOPIC}]]
    else [[{TRANSFER_TOPIC}, {}, m.watched], [{TRANSFER_TOPIC}, m.watched]]
  }

  /** The answers to every filter, one after the other. */
  function Answers(m: Matcher, filters: seq<seq<Accepted>>, lo: nat, hi: nat, logs: seq<Log>): seq<Log> {
    if filters == [] then []
    else Answers(m, filters[..|filters| - 1], lo, hi, logs) + Select(m, filters[|filters| - 1], lo, hi, logs)
  }

  /** What a scan of block `n` gets from its own queries. */
  function PerBlock(m: Matcher, logs: seq<Log>, n: nat): seq<Log> {
    Dedup(Answers(m, TransferTopicFilters(m), n, n, logs))
  }

  /** Whether the node answered a filter's query, by the query's last block and the filter's position. */
  type Served = (nat, nat) -> bool

  predicate AllServed(m: Matcher, served: Served, hi: nat) {
    forall i :: 0 <= i < |TransferTopicFilters(m)| ==> served(hi, i)
  }

  /** Every filter's answer over [lo, hi]; None exactly when one of them fails. */
  method FetchTopicFilterLogs(m: Matcher, node: seq<Log>, lo: nat, hi: nat, served: Served) returns (r: Option<seq<seq<Log>>>)
    ensures r.Some? <==> AllServed(m, served, hi)
    ensures r.Some? ==> |r.value| == |TransferTopicFilters(m)|
    ensures r.Some? ==> forall i :: 0 <= i < |r.value| ==> r.value[i] == Select(m, TransferTopicFilters(m)[i], lo, hi, node)
  {
    var filters := TransferTopicFilters(m);
    var results: seq<seq<Log>> := [];
    for i := 0 to |filters|
      invariant |results| == i
      invariant forall k :: 0 <= k < i ==> served(hi, k) && results[k] == Select(m, filters[k], lo, hi, node)
    {
      if !served(hi, i) { return None; }
      results := results + [Select(m, filters[i], lo, hi, node)];
    }
    return Some(results);
  }

  /** All watched-transfer logs in [lo, hi] by block: each block gets what its own queries would have given. */
  method FetchLogsRange(m: Matcher, node: seq<Log>, lo: nat, hi: nat, served: Served) returns (r: Option<map<nat, seq<Log>>>)
    ensures r.Some? <==> m.tokens == map[] || AllServed(m, served, hi)
    ensures r.Some? && m.tokens == map[] ==> r.value == map[]
    ensures r.Some? && m.tokens != map[] ==> forall n :: lo <= n <= hi ==> LogsAt(r.value, n) == PerBlock(m, node, n)
    ensures r.Some? ==> forall n :: n in r.value ==> lo <= n <= hi
  {
    if |m.tokens| == 0 { return Some(map[]); }
    var results := FetchTopicFilterLogs(m, node, lo, hi, served);
    if results.None? { return None; }
    var filters := TransferTopicFilters(m);
    var out: map<nat, seq<Log>> := map[];
    var seen: set<LogKey> := {};
    ghost var all: seq<Log> := [];
    for i := 0 to |results.value|
      invariant all == Answers(m, filters[..i], lo, hi, node)
      invariant Groups(out, seen, all)
    {
      out, seen := Absorb(out, seen, results.value[i], all);
      assert filters[..i + 1][..i] == filters[..i];
      all := all + results.value[i];
    }
    assert filters[..|filters|] == filters;
    forall n | lo <= n <= hi ensures LogsAt(out, n) == PerBlock(m, node, n) {
      DedupOfBlock(all, n);
      AnswersOfBlock(m, filters, lo, hi, node, n);
    }
    forall n | n in out ensures lo <= n <= hi {
      DedupOfBlock(all, n);
      if !(lo <= n <= hi) { AnswersOutside(m, filters, lo, hi, node, n); }
    }
    return Some(out);
  }

  /** Go's map lookup: a block without an entry has no logs. */
  function LogsAt(out: map<nat, seq<Log>>, n: nat): seq<Log> {
    if n in out then out[n] else []
  }

  /** `out` holds the first log at each position of `all`, grouped by block; `seen` their positions. */
  ghost predicate Groups(out: map<nat, seq<Log>>, seen: set<LogKey>, all: seq<Log>) {
    && (forall n :: n in out ==> out[n] != [])
    && (forall n :: LogsAt(out, n) == OfBlock(Dedup(all), n))
    && (forall k :: k in seen <==> SeenKey(all, k))
  }

  /** One filter's answer into the groups. */
  method Absorb(out: map<nat, seq<Log>>, seen: set<LogKey>, logs: seq<Log>, ghost all: seq<Log>)
    returns (out': map<nat, seq<Log>>, seen': set<LogKey>)
    requires Groups(out, seen, all)
    ensures Groups(out', seen', all + logs)
  {
    hide Groups;
    out', seen' := out, seen;
    assert all + logs[..0] == all;
    for j := 0 to |logs|
      invariant Groups(out', seen', all + logs[..j])
    {
      var lg := logs[j];
      GroupsGrow(out', seen', all + logs[..j], lg);
      assert all + logs[..j + 1] == all + logs[..j] + [lg];
      if KeyOf(lg) in seen' { continue; }
      seen' := seen' + {KeyOf(lg)};
      out' := out'[lg.blockNumber := LogsAt(out', lg.blockNumber) + [lg]];
    }
    assert logs[..|logs|] == logs;
  }

  lemma GroupsGrow(out: map<nat, seq<Log>>, seen: set<LogKey>, all: seq<Log>, lg: Log)
    requires Groups(out, seen, all)
    ensures KeyOf(lg) in seen ==> Groups(out, seen, all + [lg])
    ensures KeyOf(lg) !in seen ==>
      Groups(out[lg.blockNumber := LogsAt(out, lg.blockNumber) + [lg]], seen + {KeyOf(lg)}, all + [lg])
  {
    hide Dedup, SeenKey, OfBlock;
    SeenGrows(all, lg);
    OfBlockGrows(Dedup(all), lg);
    assert Dedup(all) + [] == Dedup(all);
  }

  lemma OfBlockGrows(logs: seq<Log>, lg: Log)
    ensures forall n :: OfBlock(logs + [lg], n) == OfBlock(logs, n) + if lg.blockNumber == n then [lg] else []
  {
    assert (logs + [lg])[..|logs|] == logs;
  }

  lemma SeenGrows(all: seq<Log>, lg: Log)
    ensures forall k :: SeenKey(all + [lg], k) <==> SeenKey(all, k) || k == KeyOf(lg)
    ensures Dedup(all + [lg]) == Dedup(all) + if SeenKey(all, KeyOf(lg)) then [] else [lg]
  {
    assert (all + [lg])[..|all|] == all;
    forall k ensures SeenKey(all + [lg], k) <==> SeenKey(all, k) || k == KeyOf(lg) {
      if SeenKey(all, k) {
        var i :| 0 <= i < |all| && KeyOf(all[i]) == k;
        assert (all + [lg])[i] == all[i];
      }
      if k == KeyOf(lg) { assert (all + [lg])[|all|] == lg; }
    }
  }

  // ---------------------------------------------------------------- a block out of a range

  lemma {:induction false} OfBlockConcat(a: seq<Log>, b: seq<Log>, n: nat)
    ensures OfBlock(a + b, n) == OfBlock(a, n) + OfBlock(b, n)
  {
    if b == [] {
      assert a + b == a;
    } else {
      assert (a + b)[..|a + b| - 1] == a + b[..|b| - 1];
      OfBlockConcat(a, b[..|b| - 1], n);
    }
  }

  /** Restricting a range query to one block is querying that block. */
  lemma {:induction false} SelectOfBlock(m: Matcher, filter: seq<Accepted>, lo: nat, hi: nat, logs: seq<Log>, n: nat)
    requires lo <= n <= hi
    ensures OfBlock(Select(m, filter, lo, hi, logs), n) == Select(m, filter, n, n, logs)
  {
    if logs == [] {
    } else {
      var init, lg := logs[..|logs| - 1], logs[|logs| - 1];
      SelectOfBlock(m, filter, lo, hi, init, n);
      OfBlockConcat(Select(m, filter, lo, hi, init), if Passes(m, filter, lo, hi, lg) then [lg] else [], n);
    }
  }

  lemma {:induction false} AnswersOfBlock(m: Matcher, filters: seq<seq<Accepted>>, lo: nat, hi: nat, logs: seq<Log>, n: nat)
    requires lo <= n <= hi
    ensures OfBlock(Answers(m, filters, lo, hi, logs), n) == Answers(m, filters, n, n, logs)
  {
    if filters == [] {
    } else {
      var init, last := filters[..|filters| - 1], filters[|filters| - 1];
      AnswersOfBlock(m, init, lo, hi, logs, n);
      SelectOfBlock(m, last, lo, hi, logs, n);
      OfBlockConcat(Answers(m, init, lo, hi, logs), Select(m, last, lo, hi, logs), n);
    }
  }

  lemma {:induction false} AnswersOutside(m: Matcher, filters: seq<seq<Accepted>>, lo: nat, hi: nat, logs: seq<Log>, n: nat)
    requires !(lo <= n <= hi)
    ensures OfBlock(Answers(m, filters, lo, hi, logs), n) == []
  {
    if filters == [] {
    } else {
      var init, last := filters[..|filters| - 1], filters[|filters| - 1];
      AnswersOutside(m, init, lo, hi, logs, n);
      SelectOutside(m, last, lo, hi, logs, n);
      OfBlockConcat(Answers(m, init, lo, hi, logs), Select(m, last, lo, hi, logs), n);
    }
  }

  lemma {:induction false} SelectOutside(m: Matcher, filter: seq<Accepted>, lo: nat, hi: nat, logs: seq<Log>, n: nat)
    requires !(lo <= n <= hi)
    ensures OfBlock(Select(m, filter, lo, hi, logs), n) == []
  {
    if logs == [] {
    } else {
      var init, lg := logs[..|logs| - 1], logs[|logs| - 1];
      SelectOutside(m, filter, lo, hi, init, n);
      OfBlockConcat(Select(m, filter, lo, hi, init), if Passes(m, filter, lo, hi, lg) then [lg] else [], n);
    }
  }

  lemma {:induction false} OfBlockMembers(logs: seq<Log>, n: nat)
    ensures forall lg :: lg in OfBlock(logs, n) <==> lg in logs && lg.blockNumber == n
  {
    if logs == [] {
    } else {
      var init, last := logs[..|logs| - 1], logs[|logs| - 1];
      OfBlockMembers(init, n);
      assert logs == init + [last];
    }
  }

  /** Dropping duplicates and restricting to a block commute. */
  lemma {:induction false} DedupOfBlock(logs: seq<Log>, n: nat)
    ensures OfBlock(Dedup(logs), n) == Dedup(OfBlock(logs, n))
  {
    if logs == [] {
    } else {
      var init, lg := logs[..|logs| - 1], logs[|logs| - 1];
      DedupOfBlock(init, n);
      OfBlockConcat(Dedup(init), if SeenKey(init, KeyOf(lg)) then [] else [lg], n);
      assert [lg][..0] == [];
      if lg.blockNumber == n {
        assert OfBlock(logs, n) == OfBlock(init, n) + [lg];
        assert (OfBlock(init, n) + [lg])[..|OfBlock(init, n)|] == OfBlock(init, n);
        OfBlockMembers(init, n);
        SeenMembers(init, OfBlock(init, n), KeyOf(lg));
      } else {
        assert OfBlock(logs, n) == OfBlock(init, n);
      }
    }
  }

  lemma SeenMembers(a: seq<Log>, b: seq<Log>, key: LogKey)
    requires forall lg :: lg in b <==> lg in a && lg.blockNumber == key.block
    ensures SeenKey(a, key) <==> SeenKey(b, key)
  {
    if SeenKey(a, key) {
      var i :| 0 <= i < |a| && KeyOf(a[i]) == key;
      assert a[i] in b;
      var j :| 0 <= j < |b| && b[j] == a[i];
    }
    if SeenKey(b, key) {
      var i :| 0 <= i < |b| && KeyOf(b[i]) == key;
      assert b[i] in b;
      var j :| 0 <= j < |a| && a[j] == b[i];
    }
  }

  // ---------------------------------------------------------------- which logs become legs

  /** Logs of another block, and removed ones, are dropped: a racing reorg cannot mix them in. */
  predicate Counts(m: Matcher, lg: Log, blockHash: Hash) {
    !lg.removed && lg.blockHash == blockHash && MatchLog(m, lg).Some?
  }

  /** The legs of one transaction, in the order the logs come. */
  function LegsIn(m: Matcher, logs: seq<Log>, blockHash: Hash, h: Hash): seq<Match> {
    if logs == [] then []
    else
      var lg := logs[|logs| - 1];
      LegsIn(m, logs[..|logs| - 1], blockHash, h)
      + if Counts(m, lg, blockHash) && lg.txHash == h then [MatchLog(m, lg).value] else []
  }

  ghost predicate LegOf(m: Matcher, lg: Log, blockHash: Hash, h: Hash, leg: Match) {
    Counts(m, lg, blockHash) && lg.txHash == h && MatchLog(m, lg) == Some(leg)
  }

  lemma {:induction false} LegsMembers(m: Matcher, logs: seq<Log>, blockHash: Hash, h: Hash)
    ensures forall leg :: leg in LegsIn(m, logs, blockHash, h) <==> exists lg :: lg in logs && LegOf(m, lg, blockHash, h, leg)
  {
    if logs == [] {
    } else {
      var init, last := logs[..|logs| - 1], logs[|logs| - 1];
      LegsMembers(m, init, blockHash, h);
      assert logs == init + [last];
      forall leg ensures leg in LegsIn(m, logs, blockHash, h) <==> exists lg :: lg in logs && LegOf(m, lg, blockHash, h, leg) {
        if LegOf(m, last, blockHash, h, leg) {
          assert last in logs;
        }
        if leg in LegsIn(m, init, blockHash, h) {
          var lg :| lg in init && LegOf(m, lg, blockHash, h, leg);
          assert lg in logs;
        }
      }
    }
  }

  ghost predicate NoRepeats(legs: seq<Match>) {
    forall i, j :: 0 <= i < j < |legs| ==> legs[i] != legs[j]
  }

  /** The same legs, each once, in whatever order. */
  ghost predicate SameLegs(a: seq<Match>, b: seq<Match>) {
    NoRepeats(a) && NoRepeats(b) && forall leg :: leg in a <==> leg in b
  }

  lemma {:induction false} LegsDistinct(m: Matcher, logs: seq<Log>, n: nat, blockHash: Hash, h: Hash)
    requires Distinct(logs) && forall lg :: lg in logs ==> lg.blockNumber == n
    ensures NoRepeats(LegsIn(m, logs, blockHash, h))
  {
    if logs == [] {
    } else {
      var init, last := logs[..|logs| - 1], logs[|logs| - 1];
      LegsDistinct(m, init, n, blockHash, h);
      LegsMembers(m, init, blockHash, h);
      forall leg | leg in LegsIn(m, init, blockHash, h) ensures MatchLog(m, last) != Some(leg) {
        var lg :| lg in init && LegOf(m, lg, blockHash, h, leg);
        var i :| 0 <= i < |init| && init[i] == lg;
        assert KeyOf(logs[i]) != KeyOf(logs[|init|]);
      }
    }
  }

  // ---------------------------------------------------------------- the log sources agree

  /** A transfer the topic filters can see: the watched side's topic is left-padded, or nothing is filtered. */
  predicate Visible(m: Matcher, lg: Log) {
    |m.watched| > SERVER_FILTER_MAX_ADDRESSES
    || (|lg.topics| == 3 && (lg.topics[1] in m.watched || lg.topics[2] in m.watched))
  }

  lemma {:induction false} SelectMembers(m: Matcher, filter: seq<Accepted>, lo: nat, hi: nat, logs: seq<Log>)
    ensures forall lg :: lg in Select(m, filter, lo, hi, logs) <==> lg in logs && Passes(m, filter, lo, hi, lg)
  {
    if logs == [] {
    } else {
      SelectMembers(m, filter, lo, hi, logs[..|logs| - 1]);
      assert logs == logs[..|logs| - 1] + [logs[|logs| - 1]];
    }
  }

  lemma {:induction false} DedupMembers(node: seq<Log>, logs: seq<Log>)
    requires Distinct(node) && forall lg :: lg in logs ==> lg in node
    ensures Distinct(Dedup(logs)) && forall lg :: lg in Dedup(logs) <==> lg in logs
  {
    if logs == [] {
    } else {
      var init, last := logs[..|logs| - 1], logs[|logs| - 1];
      assert logs == init + [last];
      DedupMembers(node, init);
      if SeenKey(init, KeyOf(last)) {
        var i :| 0 <= i < |init| && KeyOf(init[i]) == KeyOf(last);
        SamePosition(node, init[i], last);
      } else {
        forall i | 0 <= i < |Dedup(init)| ensures KeyOf(Dedup(init)[i]) != KeyOf(last) {
          assert Dedup(init)[i] in init;
        }
      }
    }
  }

  lemma SamePosition(node: seq<Log>, a: Log, b: Log)
    requires Distinct(node) && a in node && b in node && KeyOf(a) == KeyOf(b)
    ensures a == b
  {
    var i :| 0 <= i < |node| && node[i] == a;
    var j :| 0 <= j < |node| && node[j] == b;
  }

  lemma AnswersMembers(m: Matcher, n: nat, node: seq<Log>)
    ensures forall lg :: lg in Answers(m, TransferTopicFilters(m), n, n, node) ==> lg in node && lg.blockNumber == n
    ensures forall lg :: MatchLog(m, lg).Some? ==>
      (lg in Answers(m, TransferTopicFilters(m), n, n, node) <==> lg in node && lg.blockNumber == n && Visible(m, lg))
  {
    var filters := TransferTopicFilters(m);
    SelectMembers(m, filters[0], n, n, node);
    var first: seq<seq<Accepted>> := filters[..1];
    assert first[..0] == [];
    assert Answers(m, first, n, n, node) == Select(m, filters[0], n, n, node);
    if |m.watched| > SERVER_FILTER_MAX_ADDRESSES {
      assert first == filters;
    } else {
      SelectMembers(m, filters[1], n, n, node);
      assert filters[..2] == filters && filters[..2][..1] == first;
      assert Answers(m, filters, n, n, node)
          == Select(m, filters[0], n, n, node) + Select(m, filters[1], n, n, node);
    }
  }

  lemma PerBlockMembers(m: Matcher, n: nat, node: seq<Log>)
    requires Distinct(node)
    ensures var logs := PerBlock(m, node, n);
            && Distinct(logs)
            && (forall lg :: lg in logs ==> lg in node && lg.blockNumber == n)
            && (forall lg :: MatchLog(m, lg).Some? ==> (lg in logs <==> lg in node && lg.blockNumber == n && Visible(m, lg)))
  {
    AnswersMembers(m, n, node);
    DedupMembers(node, Answers(m, TransferTopicFilters(m), n, n, node));
  }

  lemma {:induction false} OfBlockDistinct(logs: seq<Log>, n: nat)
    requires Distinct(logs)
    ensures Distinct(OfBlock(logs, n))
  {
    if logs == [] {
    } else {
      var init, last := logs[..|logs| - 1], logs[|logs| - 1];
      OfBlockDistinct(init, n);
      OfBlockMembers(init, n);
      forall i | 0 <= i < |OfBlock(init, n)| ensures KeyOf(OfBlock(init, n)[i]) != KeyOf(last) {
        assert OfBlock(init, n)[i] in init;
        var j :| 0 <= j < |init| && init[j] == OfBlock(init, n)[i];
        assert KeyOf(logs[j]) != KeyOf(logs[|init|]);
      }
    }
  }

  ghost predicate AllVisible(m: Matcher, node: seq<Log>, n: nat, blockHash: Hash) {
    forall lg :: lg in OfBlock(node, n) && Counts(m, lg, blockHash) ==> Visible(m, lg)
  }

  ghost predicate SourcesAgree(m: Matcher, node: seq<Log>, n: nat, blockHash: Hash) {
    forall h :: SameLegs(LegsIn(m, PerBlock(m, node, n), blockHash, h), LegsIn(m, OfBlock(node, n), blockHash, h))
  }

  /**
   The topic filters and the block's receipts find the same legs for every transaction exactly when every
   matching log of the block has a left-padded topic for a watched side.
   */
  lemma SourcesAgreeExactly(m: Matcher, node: seq<Log>, n: nat, blockHash: Hash)
    requires Distinct(node)
    ensures SourcesAgree(m, node, n, blockHash) <==> AllVisible(m, node, n, blockHash)
  {
    if AllVisible(m, node, n, blockHash) {
      forall h ensures SameLegs(LegsIn(m, PerBlock(m, node, n), blockHash, h), LegsIn(m, OfBlock(node, n), blockHash, h)) {
        VisibleAgree(m, node, n, blockHash, h);
      }
    }
    if SourcesAgree(m, node, n, blockHash) {
      forall lg | lg in OfBlock(node, n) && Counts(m, lg, blockHash) ensures Visible(m, lg) {
        AgreeVisible(m, node, n, blockHash, lg);
      }
    }
  }

  lemma VisibleAgree(m: Matcher, node: seq<Log>, n: nat, blockHash: Hash, h: Hash)
    requires Distinct(node) && AllVisible(m, node, n, blockHash)
    ensures SameLegs(LegsIn(m, PerBlock(m, node, n), blockHash, h), LegsIn(m, OfBlock(node, n), blockHash, h))
  {
    hide PerBlock, MatchLog, LegsIn, OfBlock, Visible, KeyOf;
    var a, b := PerBlock(m, node, n), OfBlock(node, n);
    PerBlockMembers(m, n, node);
    OfBlockMembers(node, n);
    OfBlockDistinct(node, n);
    LegsDistinct(m, a, n, blockHash, h);
    LegsDistinct(m, b, n, blockHash, h);
    LegsMembers(m, a, blockHash, h);
    LegsMembers(m, b, blockHash, h);
    forall lg, leg | LegOf(m, lg, blockHash, h, leg) ensures lg in a <==> lg in b {
    }
  }

  lemma AgreeVisible(m: Matcher, node: seq<Log>, n: nat, blockHash: Hash, lg: Log)
    requires Distinct(node) && SourcesAgree(m, node, n, blockHash)
    requires lg in OfBlock(node, n) && Counts(m, lg, blockHash)
    ensures Visible(m, lg)
  {
    var a, b, leg := PerBlock(m, node, n), OfBlock(node, n), MatchLog(m, lg).value;
    PerBlockMembers(m, n, node);
    OfBlockMembers(node, n);
    LegsMembers(m, a, blockHash, lg.txHash);
    LegsMembers(m, b, blockHash, lg.txHash);
    assert LegOf(m, lg, blockHash, lg.txHash, leg);
    assert SameLegs(LegsIn(m, a, blockHash, lg.txHash), LegsIn(m, b, blockHash, lg.txHash));
    assert leg in LegsIn(m, a, blockHash, lg.txHash);
    var found :| found in a && LegOf(m, found, blockHash, lg.txHash, leg);
    assert KeyOf(found) == KeyOf(lg);
    SamePosition(node, found, lg);
  }

  /** Every Transfer log a conforming token emits is visible: its address topics are left-padded. */
  lemma LeftPaddedVisible(m: Matcher, lg: Log)
    requires MatchLog(m, lg).Some? && lg.topics[1] < ADDRESS_SPAN && lg.topics[2] < ADDRESS_SPAN
    ensures Visible(m, lg)
  {
  }

  /** A topic with dirty high bits is matched from receipts but not found by the filters. */
  lemma DirtyTopicLost(m: Matcher, token: Address, blockHash: Hash)
    requires m.watched == {7} && token in m.tokens
    ensures var lg := Log(token, [TRANSFER_TOPIC, ADDRESS_SPAN + 7, 9], [1], 5, blockHash, 3, 0, false);
            && MatchLog(m, lg).Some?
            && LegsIn(m, OfBlock([lg], 5), blockHash, 3) == [MatchLog(m, lg).value]
            && LegsIn(m, PerBlock(m, [lg], 5), blockHash, 3) == []
  {
    var lg := Log(token, [TRANSFER_TOPIC, ADDRESS_SPAN + 7, 9], [1], 5, blockHash, 3, 0, false);
    assert [lg][..0] == [] && lg.data[..0] == [];
    assert Unsigned(lg.data) == 1;
    var filters := TransferTopicFilters(m);
    assert |filters| == 2 && lg.topics[2] !in filters[0][2] && lg.topics[1] !in filters[1][1];
    forall filter | filter in filters ensures Select(m, filter, 5, 5, [lg]) == [] {
      assert !TopicsPass(filter, lg.topics);
      assert [lg][..0] == [];
    }
    NoAnswers(m, TransferTopicFilters(m), 5, [lg]);
  }

  lemma {:induction false} NoAnswers(m: Matcher, filters: seq<seq<Accepted>>, n: nat, logs: seq<Log>)
    requires forall filter :: filter in filters ==> Select(m, filter, n, n, logs) == []
    ensures Answers(m, filters, n, n, logs) == []
  {
    if filters == [] {
    } else {
      NoAnswers(m, filters[..|filters| - 1], n, logs);
    }
  }

  // ---------------------------------------------------------------- scanning a block

  datatype ReceiptStatus = Succeeded | Reverted | Vanished | Unavailable

  /** What the native pass over the block body files for one transaction. */
  function NativeEntry(m: Matcher, body: seq<BodyTx>, status: Hash -> ReceiptStatus, h: Hash): Option<Blocks.MinedTx> {
    if body == [] then None
    else
      var before, tx := NativeEntry(m, body[..|body| - 1], status, h), body[|body| - 1];
      if tx.hash != h || MatchBlockTx(m, tx) == [] || status(h).Vanished? then before
      else
        var entry := if before.Some? then before.value else Blocks.MinedTx(h, [], false);
        if status(h).Reverted? then Some(entry.(failed := true, transfers := MatchBlockTx(m, tx)))
        else Some(entry.(transfers := entry.transfers + Tracking.Natives(MatchBlockTx(m, tx))))
  }

  /** The scan's entry for one transaction: its native legs, then the legs its logs prove. */
  function Entry(native: Option<Blocks.MinedTx>, legs: seq<Match>, h: Hash): Option<Blocks.MinedTx> {
    if legs == [] then native
    else if native.None? then Some(Blocks.MinedTx(h, legs, false))
    else Some(native.value.(transfers := native.value.transfers + legs))
  }

  function EntryAt(byTx: map<Hash, Blocks.MinedTx>, h: Hash): Option<Blocks.MinedTx> {
    if h in byTx then Some(byTx[h]) else None
  }

  /** `order` lists every filed transaction once. */
  ghost predicate InFindOrder(byTx: map<Hash, Blocks.MinedTx>, order: seq<Hash>) {
    && Invariant.NoDup(order)
    && (forall h :: h in order <==> h in byTx)
    && (forall h :: h in byTx ==> byTx[h].hash == h)
  }

  /** The candidate logs: prefetched ones, the receipts' for a huge watched set, or this block's own queries. */
  ghost function Candidates(m: Matcher, prefetched: Option<seq<Log>>, receiptLogs: Option<seq<Log>>, node: seq<Log>, n: nat): seq<Log> {
    if m.tokens == map[] then []
    else if prefetched.Some? then prefetched.value
    else if |m.watched| > SERVER_FILTER_MAX_ADDRESSES && receiptLogs.Some? then receiptLogs.value
    else PerBlock(m, node, n)
  }

  /** The hashes the native pass files, in the order of the block body. */
  function NativeOrder(m: Matcher, body: seq<BodyTx>, status: Hash -> ReceiptStatus): seq<Hash> {
    if body == [] then []
    else
      var before, tx := NativeOrder(m, body[..|body| - 1], status), body[|body| - 1];
      if MatchBlockTx(m, tx) == [] || status(tx.hash).Vanished? || tx.hash in before then before else before + [tx.hash]
  }

  /** The hashes the logs add after them, in the order of the logs. */
  function LogOrder(m: Matcher, logs: seq<Log>, blockHash: Hash, order: seq<Hash>): seq<Hash> {
    if logs == [] then order
    else
      var before, lg := LogOrder(m, logs[..|logs| - 1], blockHash, order), logs[|logs| - 1];
      if !Counts(m, lg, blockHash) || lg.txHash in before then before else before + [lg.txHash]
  }

  /** A transaction is found once, where it first matches; a log after the body's transactions, where it first proves a leg. */
  lemma FoundNext(m: Matcher, body: seq<BodyTx>, status: Hash -> ReceiptStatus, tx: BodyTx, logs: seq<Log>, blockHash: Hash,
                  order: seq<Hash>, lg: Log)
    ensures var found := NativeOrder(m, body, status);
            && NativeOrder(m, [], status) == []
            && (tx.hash !in found && MatchBlockTx(m, tx) != [] && !status(tx.hash).Vanished? ==>
                 NativeOrder(m, body + [tx], status) == found + [tx.hash])
            && (tx.hash in found || MatchBlockTx(m, tx) == [] || status(tx.hash).Vanished? ==> NativeOrder(m, body + [tx], status) == found)
    ensures var found := LogOrder(m, logs, blockHash, order);
            var proves := !lg.removed && lg.blockHash == blockHash && MatchLog(m, lg).Some?;
            && LogOrder(m, [], blockHash, order) == order
            && (lg.txHash !in found && proves ==> LogOrder(m, logs + [lg], blockHash, order) == found + [lg.txHash])
            && (lg.txHash in found || !proves ==> LogOrder(m, logs + [lg], blockHash, order) == found)
  {
    hide MatchBlockTx, MatchLog;
    assert (body + [tx])[..|body|] == body && (logs + [lg])[..|logs|] == logs;
  }

  /** Where a scan takes its logs from, first choice first. */
  lemma CandidatesFrom(m: Matcher, prefetched: Option<seq<Log>>, receiptLogs: Option<seq<Log>>, node: seq<Log>, n: nat)
    ensures var logs := Candidates(m, prefetched, receiptLogs, node, n);
            && (m.tokens == map[] ==> logs == [])
            && (m.tokens != map[] && prefetched.Some? ==> logs == prefetched.value)
            && (m.tokens != map[] && prefetched.None? && |m.watched| > 1000 && receiptLogs.Some? ==> logs == receiptLogs.value)
            && (m.tokens != map[] && prefetched.None? && (|m.watched| <= 1000 || receiptLogs.None?) ==> logs == PerBlock(m, node, n))
  {
  }

  method FileNative(m: Matcher, body: seq<BodyTx>, status: Hash -> ReceiptStatus)
    returns (ok: bool, byTx: map<Hash, Blocks.MinedTx>, order: seq<Hash>)
    ensures ok ==> InFindOrder(byTx, order) && order == NativeOrder(m, body, status)
    ensures ok ==> forall h :: EntryAt(byTx, h) == NativeEntry(m, body, status, h)
    ensures ok <==> forall tx :: tx in body && MatchBlockTx(m, tx) != [] ==> !status(tx.hash).Unavailable?
  {
    hide MatchBlockTx, Tracking.Natives;
    ok, byTx, order := true, map[], [];
    for i := 0 to |body|
      invariant ok && InFindOrder(byTx, order) && order == NativeOrder(m, body[..i], status)
      invariant forall h :: EntryAt(byTx, h) == NativeEntry(m, body[..i], status, h)
      invariant forall tx :: tx in body[..i] && MatchBlockTx(m, tx) != [] ==> !status(tx.hash).Unavailable?
    {
      var tx, matches := body[i], MatchBlockTx(m, body[i]);
      assert body[..i + 1][..i] == body[..i] && tx in body;
      if |matches| == 0 || status(tx.hash) == Vanished { continue; }
      if status(tx.hash) == Unavailable { return false, byTx, order; }
      var entry := Blocks.MinedTx(tx.hash, [], false);
      if tx.hash in byTx {
        entry := byTx[tx.hash];
      } else {
        order := order + [tx.hash];
      }
      if status(tx.hash) == Reverted {
        entry := entry.(failed := true, transfers := matches);
      } else {
        var native := KeepNative(matches);
        entry := entry.(transfers := entry.transfers + native);
      }
      byTx := byTx[tx.hash := entry];
    }
    assert body[..|body|] == body;
  }

  method KeepNative(matches: seq<Match>) returns (native: seq<Match>)
    ensures native == Tracking.Natives(matches)
  {
    native := [];
    for i := 0 to |matches|
      invariant native == Tracking.Natives(matches[..i])
    {
      assert matches[..i + 1][..i] == matches[..i];
      if matches[i].token.None? {
        native := native + [matches[i]];
      }
    }
    assert matches[..|matches|] == matches;
  }

  method FileLogs(m: Matcher, logs: seq<Log>, blockHash: Hash, byTx: map<Hash, Blocks.MinedTx>, order: seq<Hash>)
    returns (byTx': map<Hash, Blocks.MinedTx>, order': seq<Hash>)
    requires InFindOrder(byTx, order)
    ensures InFindOrder(byTx', order') && order' == LogOrder(m, logs, blockHash, order)
    ensures forall h :: EntryAt(byTx', h) == Entry(EntryAt(byTx, h), LegsIn(m, logs, blockHash, h), h)
  {
    byTx', order' := byTx, order;
    for j := 0 to |logs|
      invariant InFindOrder(byTx', order') && order' == LogOrder(m, logs[..j], blockHash, order)
      invariant forall h :: EntryAt(byTx', h) == Entry(EntryAt(byTx, h), LegsIn(m, logs[..j], blockHash, h), h)
    {
      var lg := logs[j];
      LegsGrow(m, logs, j, blockHash);
      assert logs[..j + 1][..j] == logs[..j];
      if lg.removed || lg.blockHash != blockHash { continue; }
      var leg := MatchLog(m, lg);
      if leg.None? { continue; }
      var entry := Blocks.MinedTx(lg.txHash, [], false);
      if lg.txHash in byTx' {
        entry := byTx'[lg.txHash];
      } else {
        order' := order' + [lg.txHash];
      }
      EntryGrows(EntryAt(byTx, lg.txHash), LegsIn(m, logs[..j], blockHash, lg.txHash), leg.value, lg.txHash);
      byTx' := byTx'[lg.txHash := entry.(transfers := entry.transfers + [leg.value])];
    }
    assert logs[..|logs|] == logs;
  }

  lemma LegsGrow(m: Matcher, logs: seq<Log>, j: nat, blockHash: Hash)
    requires j < |logs|
    ensures forall h :: !(Counts(m, logs[j], blockHash) && logs[j].txHash == h) ==>
      LegsIn(m, logs[..j + 1], blockHash, h) == LegsIn(m, logs[..j], blockHash, h)
    ensures Counts(m, logs[j], blockHash) ==>
      LegsIn(m, logs[..j + 1], blockHash, logs[j].txHash)
      == LegsIn(m, logs[..j], blockHash, logs[j].txHash) + [MatchLog(m, logs[j]).value]
  {
    assert logs[..j + 1][..j] == logs[..j];
  }

  lemma EntryGrows(native: Option<Blocks.MinedTx>, legs: seq<Match>, leg: Match, h: Hash)
    ensures var e := Entry(native, legs, h);
            var entry := if e.Some? then e.value else Blocks.MinedTx(h, [], false);
            Entry(native, legs + [leg], h) == Some(entry.(transfers := entry.transfers + [leg]))
  {
    if native.Some? {
      assert native.value.transfers + (legs + [leg]) == native.value.transfers + legs + [leg];
    }
    assert [] + [leg] == [leg];
  }

  /** The scan needs the block's own log queries: there are tokens, and no logs from elsewhere. */
  predicate Queries(m: Matcher, prefetched: Option<seq<Log>>, receiptLogs: Option<seq<Log>>) {
    m.tokens != map[] && prefetched.None? && !(|m.watched| > SERVER_FILTER_MAX_ADDRESSES && receiptLogs.Some?)
  }

  function HashesOf(entries: seq<Blocks.MinedTx>): seq<Hash> {
    seq(|entries|, i requires 0 <= i < |entries| => entries[i].hash)
  }

  /**
   One entry per transaction with watched activity, holding exactly its legs, in the order they were found;
   None exactly when the receipt of a matched transaction or one of the scan's own queries is unavailable.
   */
  method ScanBlock(m: Matcher, body: seq<BodyTx>, blockHash: Hash, number: nat, status: Hash -> ReceiptStatus,
                   prefetched: Option<seq<Log>>, receiptLogs: Option<seq<Log>>, node: seq<Log>, served: Served)
    returns (r: Option<seq<Blocks.MinedTx>>)
    ensures r.Some? <==>
      && (forall tx :: tx in body && MatchBlockTx(m, tx) != [] ==> !status(tx.hash).Unavailable?)
      && (Queries(m, prefetched, receiptLogs) ==> AllServed(m, served, number))
    ensures r.Some? ==> Reports(m, body, status, Candidates(m, prefetched, receiptLogs, node, number), blockHash, r.value)
    ensures r.Some? ==> forall i :: 0 <= i < |r.value| ==>
      (r.value[i].failed <==> MatchedIn(m, body, r.value[i].hash) && status(r.value[i].hash).Reverted?)
    ensures r.Some? ==>
      HashesOf(r.value) == LogOrder(m, Candidates(m, prefetched, receiptLogs, node, number), blockHash, NativeOrder(m, body, status))
  {
    hide NativeEntry, LegsIn, NativeOrder, LogOrder, MatchBlockTx, PerBlock, Entry, InFindOrder, Reports, MatchedIn, ProvesLeg;
    var ok, byTx, order := FileNative(m, body, status);
    if !ok { return None; }
    if |m.tokens| > 0 {
      var candidates: seq<Log>;
      if prefetched.Some? {
        candidates := prefetched.value;
      } else if |m.watched| > SERVER_FILTER_MAX_ADDRESSES && receiptLogs.Some? {
        candidates := receiptLogs.value;
      } else {
        var results := FetchTopicFilterLogs(m, node, number, number, served);
        if results.None? { return None; }
        candidates := FirstOfEach(m, results.value, node, number);
      }
      byTx, order := FileLogs(m, candidates, blockHash, byTx, order);
    } else {
      NoLogs(m, blockHash, order);
    }
    Listed(byTx, order);
    var out := seq(|order|, i requires 0 <= i < |order| && order[i] in byTx => byTx[order[i]]);
    FiledReports(m, body, status, Candidates(m, prefetched, receiptLogs, node, number), blockHash, byTx, order, out);
    ReportMeans(m, body, status, Candidates(m, prefetched, receiptLogs, node, number), blockHash, out);
    return Some(out);
  }

  /** The filed entries, listed in the order they were found, are the report. */
  lemma FiledReports(m: Matcher, body: seq<BodyTx>, status: Hash -> ReceiptStatus, logs: seq<Log>, blockHash: Hash,
                     byTx: map<Hash, Blocks.MinedTx>, order: seq<Hash>, out: seq<Blocks.MinedTx>)
    requires InFindOrder(byTx, order)
    requires forall h :: EntryAt(byTx, h) == Entry(NativeEntry(m, body, status, h), LegsIn(m, logs, blockHash, h), h)
    requires |out| == |order| && forall i :: 0 <= i < |out| ==> order[i] in byTx && out[i] == byTx[order[i]]
    ensures Reports(m, body, status, logs, blockHash, out) && HashesOf(out) == order
  {
    hide NativeEntry, LegsIn, Entry;
    forall i | 0 <= i < |out|
      ensures Entry(NativeEntry(m, body, status, out[i].hash), LegsIn(m, logs, blockHash, out[i].hash), out[i].hash) == Some(out[i])
    {
      assert EntryAt(byTx, out[i].hash) == Some(out[i]);
    }
    forall h | Entry(NativeEntry(m, body, status, h), LegsIn(m, logs, blockHash, h), h).Some?
      ensures exists i :: 0 <= i < |out| && out[i].hash == h
    {
      assert EntryAt(byTx, h).Some?;
      var i :| 0 <= i < |order| && order[i] == h;
      assert out[i].hash == h;
    }
  }

  lemma NoLogs(m: Matcher, blockHash: Hash, order: seq<Hash>)
    ensures LogOrder(m, [], blockHash, order) == order
    ensures forall native, h :: Entry(native, LegsIn(m, [], blockHash, h), h) == native
  {
  }

  lemma Listed(byTx: map<Hash, Blocks.MinedTx>, order: seq<Hash>)
    requires InFindOrder(byTx, order)
    ensures forall h :: h in order ==> h in byTx
  {
  }

  /** The scan's own queries, self-transfers kept once. */
  method FirstOfEach(m: Matcher, results: seq<seq<Log>>, node: seq<Log>, number: nat) returns (candidates: seq<Log>)
    requires |results| == |TransferTopicFilters(m)|
    requires forall i :: 0 <= i < |results| ==> results[i] == Select(m, TransferTopicFilters(m)[i], number, number, node)
    ensures candidates == PerBlock(m, node, number)
  {
    var filters := TransferTopicFilters(m);
    candidates := [];
    var seen: set<nat> := {};
    ghost var all: seq<Log> := [];
    for i := 0 to |results|
      invariant all == Answers(m, filters[..i], number, number, node)
      invariant candidates == Dedup(all) && SeenAt(seen, all, number)
    {
      SelectMembers(m, filters[i], number, number, node);
      candidates, seen := TakeNew(candidates, seen, results[i], all, number);
      assert filters[..i + 1][..i] == filters[..i];
      all := all + results[i];
    }
    assert filters[..|filters|] == filters;
  }

  ghost predicate SeenAt(seen: set<nat>, all: seq<Log>, n: nat) {
    forall i: nat :: i in seen <==> SeenKey(all, LogKey(n, i))
  }

  method TakeNew(taken: seq<Log>, seen: set<nat>, logs: seq<Log>, ghost all: seq<Log>, ghost n: nat)
    returns (taken': seq<Log>, seen': set<nat>)
    requires taken == Dedup(all) && SeenAt(seen, all, n)
    requires forall lg :: lg in logs ==> lg.blockNumber == n
    ensures taken' == Dedup(all + logs) && SeenAt(seen', all + logs, n)
  {
    hide Dedup, SeenKey;
    taken', seen' := taken, seen;
    assert all + logs[..0] == all;
    for j := 0 to |logs|
      invariant taken' == Dedup(all + logs[..j]) && SeenAt(seen', all + logs[..j], n)
    {
      var lg := logs[j];
      SeenGrows(all + logs[..j], lg);
      assert all + logs[..j + 1] == all + logs[..j] + [lg];
      if lg.index in seen' { continue; }
      seen' := seen' + {lg.index};
      taken' := taken' + [lg];
    }
    assert logs[..|logs|] == logs;
  }

  ghost predicate Reports(m: Matcher, body: seq<BodyTx>, status: Hash -> ReceiptStatus, logs: seq<Log>, blockHash: Hash,
                          out: seq<Blocks.MinedTx>)
  {
    && (forall i, j :: 0 <= i < j < |out| ==> out[i].hash != out[j].hash)
    && (forall i :: 0 <= i < |out| ==>
          Entry(NativeEntry(m, body, status, out[i].hash), LegsIn(m, logs, blockHash, out[i].hash), out[i].hash) == Some(out[i]))
    && (forall h :: Entry(NativeEntry(m, body, status, h), LegsIn(m, logs, blockHash, h), h).Some? ==>
          exists i :: 0 <= i < |out| && out[i].hash == h)
  }

  /** A scan's report is what block processing relies on: one entry per transaction, each with its own genuine legs. */
  lemma ReportsWellScanned(m: Matcher, body: seq<BodyTx>, status: Hash -> ReceiptStatus, logs: seq<Log>, b: Blocks.Block)
    requires Reports(m, body, status, logs, b.hash, b.mined)
    ensures Blocks.WellScanned(b)
    ensures forall i :: 0 <= i < |b.mined| ==> forall leg :: leg in b.mined[i].transfers ==> Genuine(m, leg)
  {
    forall i | 0 <= i < |b.mined|
      ensures forall leg :: leg in b.mined[i].transfers ==> Genuine(m, leg) && leg.txHash == b.mined[i].hash
    {
      NativeEntryOwn(m, body, status, b.mined[i].hash);
      LegsMembers(m, logs, b.hash, b.mined[i].hash);
      forall leg | leg in LegsIn(m, logs, b.hash, b.mined[i].hash) ensures Genuine(m, leg) && leg.txHash == b.mined[i].hash {
        var lg :| lg in logs && LegOf(m, lg, b.hash, b.mined[i].hash, leg);
        LegsGenuine(m, BodyTx(0, 0, None, 0, [], 0), lg);
      }
    }
  }

  lemma {:induction false} NativeEntryOwn(m: Matcher, body: seq<BodyTx>, status: Hash -> ReceiptStatus, h: Hash)
    ensures var e := NativeEntry(m, body, status, h);
            e.Some? ==> e.value.hash == h && forall leg :: leg in e.value.transfers ==> Genuine(m, leg) && leg.txHash == h
  {
    hide MatchBlockTx, Genuine;
    if body == [] {
    } else {
      NativeEntryOwn(m, body[..|body| - 1], status, h);
      var tx := body[|body| - 1];
      LegsGenuine(m, tx, Log(0, [], [], 0, 0, 0, 0, false));
      NativesMembers(MatchBlockTx(m, tx));
    }
  }

  // ---------------------------------------------------------------- what a report says of receipts and logs

  /** The block body holds a transaction with this hash that matches. */
  ghost predicate MatchedIn(m: Matcher, body: seq<BodyTx>, h: Hash) {
    exists tx :: tx in body && tx.hash == h && MatchBlockTx(m, tx) != []
  }

  /** A matching transaction of the body with this hash has the leg. */
  ghost predicate LegIn(m: Matcher, body: seq<BodyTx>, h: Hash, leg: Match) {
    exists tx :: tx in body && tx.hash == h && leg in MatchBlockTx(m, tx)
  }

  lemma {:induction false} NativeEntryMeans(m: Matcher, body: seq<BodyTx>, status: Hash -> ReceiptStatus, h: Hash)
    ensures var e := NativeEntry(m, body, status, h);
            && (e.Some? <==> MatchedIn(m, body, h) && !status(h).Vanished?)
            && (e.Some? ==> (e.value.failed <==> status(h).Reverted?))
            && (e.Some? ==> forall leg :: leg in e.value.transfers ==> LegIn(m, body, h, leg) && (leg.token.None? || status(h).Reverted?))
            && (e.Some? && !status(h).Reverted? ==>
                 forall leg :: LegIn(m, body, h, leg) && leg.token.None? ==> leg in e.value.transfers)
  {
    hide MatchBlockTx;
    if body == [] {
    } else {
      var init, tx := body[..|body| - 1], body[|body| - 1];
      assert body == init + [tx];
      NativeEntryMeans(m, init, status, h);
      NativesMembers(MatchBlockTx(m, tx));
      if MatchedIn(m, init, h) {
        var t :| t in init && t.hash == h && MatchBlockTx(m, t) != [];
        assert t in body;
      }
      forall leg | LegIn(m, init, h, leg) ensures LegIn(m, body, h, leg) {
        var t :| t in init && t.hash == h && leg in MatchBlockTx(m, t);
        assert t in body;
      }
      if tx.hash == h && MatchBlockTx(m, tx) != [] { assert MatchedIn(m, body, h); }
    }
  }

  /**
   What a report says, by the block's body, the receipts and the candidate logs alone. A transaction is in it exactly
   when it matched and has a receipt, or a log of this block that was not removed proves a leg of it. It failed exactly
   when it matched and its receipt is reverted. The token legs of one that did not fail all come from such logs, its
   native legs from the body, and none of either is missing.
   */
  lemma ReportMeans(m: Matcher, body: seq<BodyTx>, status: Hash -> ReceiptStatus, logs: seq<Log>, blockHash: Hash,
                    out: seq<Blocks.MinedTx>)
    requires Reports(m, body, status, logs, blockHash, out)
    ensures forall h :: InReport(out, h) <==>
      (MatchedIn(m, body, h) && !status(h).Vanished?) || exists lg :: lg in logs && ProvesLeg(m, lg, blockHash, h)
    ensures forall i :: 0 <= i < |out| ==> (out[i].failed <==> MatchedIn(m, body, out[i].hash) && status(out[i].hash).Reverted?)
    ensures forall i, leg :: 0 <= i < |out| && !out[i].failed ==>
      (leg in out[i].transfers <==>
        || (leg.token.None? && LegIn(m, body, out[i].hash, leg) && !status(out[i].hash).Vanished?)
        || exists lg :: lg in logs && ProvesLeg(m, lg, blockHash, out[i].hash) && MatchLog(m, lg) == Some(leg))
  {
    forall h ensures InReport(out, h) <==>
      (MatchedIn(m, body, h) && !status(h).Vanished?) || exists lg :: lg in logs && ProvesLeg(m, lg, blockHash, h)
    {
      EntryMeans(m, body, status, logs, blockHash, h);
      ReportLists(m, body, status, logs, blockHash, out, h);
    }
    forall i | 0 <= i < |out|
      ensures out[i].failed <==> MatchedIn(m, body, out[i].hash) && status(out[i].hash).Reverted?
      ensures forall leg :: !out[i].failed ==>
        (leg in out[i].transfers <==>
          || (leg.token.None? && LegIn(m, body, out[i].hash, leg) && !status(out[i].hash).Vanished?)
          || exists lg :: lg in logs && ProvesLeg(m, lg, blockHash, out[i].hash) && MatchLog(m, lg) == Some(leg))
    {
      EntryMeans(m, body, status, logs, blockHash, out[i].hash);
    }
  }

  /** One more log adds its leg behind those before it, if it proves one. */
  lemma LegsNext(m: Matcher, logs: seq<Log>, lg: Log, blockHash: Hash, h: Hash)
    ensures LegsIn(m, [], blockHash, h) == []
    ensures ProvesLeg(m, lg, blockHash, h) ==>
      LegsIn(m, logs + [lg], blockHash, h) == LegsIn(m, logs, blockHash, h) + [MatchLog(m, lg).value]
    ensures !ProvesLeg(m, lg, blockHash, h) ==> LegsIn(m, logs + [lg], blockHash, h) == LegsIn(m, logs, blockHash, h)
  {
    hide MatchLog;
    assert (logs + [lg])[..|logs|] == logs;
  }

  lemma {:induction false} NativeEntryNone(m: Matcher, body: seq<BodyTx>, status: Hash -> ReceiptStatus, h: Hash)
    requires forall j :: 0 <= j < |body| ==> body[j].hash != h
    ensures NativeEntry(m, body, status, h) == None
  {
    hide MatchBlockTx;
    if body != [] { NativeEntryNone(m, body[..|body| - 1], status, h); }
  }

  /** A transaction the body holds once: all its legs when its receipt is reverted, its native ones when not. */
  lemma {:induction false} NativeEntryOnce(m: Matcher, body: seq<BodyTx>, status: Hash -> ReceiptStatus, k: nat)
    requires k < |body| && forall j :: 0 <= j < |body| && j != k ==> body[j].hash != body[k].hash
    ensures var h, all, e := body[k].hash, MatchBlockTx(m, body[k]), NativeEntry(m, body, status, body[k].hash);
            && (all == [] || status(h).Vanished? ==> e == None)
            && (all != [] && status(h).Reverted? ==> e == Some(Blocks.MinedTx(h, all, true)))
            && (all != [] && !status(h).Reverted? && !status(h).Vanished? ==>
                 e == Some(Blocks.MinedTx(h, Tracking.Natives(all), false)))
  {
    hide MatchBlockTx, Tracking.Natives;
    var init := body[..|body| - 1];
    if k == |init| {
      NativeEntryNone(m, init, status, body[k].hash);
    } else {
      NativeEntryOnce(m, init, status, k);
    }
    var natives := Tracking.Natives(MatchBlockTx(m, body[k]));
    assert [] + natives == natives;
  }

  lemma NativeFirst(m: Matcher, tx: BodyTx)
    ensures var all := MatchBlockTx(m, tx);
            Tracking.Natives(all) == if all != [] && all[0].token.None? then [all[0]] else []
  {
    hide DecodeERC20Transfer;
    var all := MatchBlockTx(m, tx);
    NativeReads(m, tx);
    CallReads(m, tx);
    if |all| == 2 {
      assert all[..1][..0] == [] && all[..1] == [all[0]];
      assert Tracking.Natives(all[..1]) == [all[0]];
    } else if |all| == 1 {
      assert all[..0] == [];
    }
  }

  /**
   The legs of an entry in order, for a transaction the body holds once: all that it asked for if its receipt is
   reverted, its native one if it is not, and then what the logs prove, in their order.
   */
  lemma ReportOrders(m: Matcher, body: seq<BodyTx>, status: Hash -> ReceiptStatus, logs: seq<Log>, blockHash: Hash,
                     out: seq<Blocks.MinedTx>, i: nat, k: nat)
    requires Reports(m, body, status, logs, blockHash, out) && i < |out| && k < |body| && body[k].hash == out[i].hash
    requires forall j :: 0 <= j < |body| && j != k ==> body[j].hash != body[k].hash
    ensures var h, all := body[k].hash, MatchBlockTx(m, body[k]);
            var proved := LegsIn(m, logs, blockHash, h);
            && (status(h).Reverted? ==> out[i].transfers == all + proved)
            && (status(h).Vanished? || (!status(h).Reverted? && (all == [] || all[0].token.Some?)) ==> out[i].transfers == proved)
            && (!status(h).Vanished? && !status(h).Reverted? && all != [] && all[0].token.None? ==>
                 out[i].transfers == [all[0]] + proved)
  {
    hide MatchBlockTx, NativeEntry, LegsIn, Tracking.Natives;
    NativeEntryOnce(m, body, status, k);
    NativeFirst(m, body[k]);
    assert Entry(NativeEntry(m, body, status, out[i].hash), LegsIn(m, logs, blockHash, out[i].hash), out[i].hash) == Some(out[i]);
    var proved := LegsIn(m, logs, blockHash, out[i].hash);
    var all := MatchBlockTx(m, body[k]);
    assert [] + proved == proved && all + [] == all;
  }

  ghost predicate InReport(out: seq<Blocks.MinedTx>, h: Hash) {
    exists i :: 0 <= i < |out| && out[i].hash == h
  }

  lemma ReportLists(m: Matcher, body: seq<BodyTx>, status: Hash -> ReceiptStatus, logs: seq<Log>, blockHash: Hash,
                    out: seq<Blocks.MinedTx>, h: Hash)
    requires Reports(m, body, status, logs, blockHash, out)
    ensures InReport(out, h) <==> Entry(NativeEntry(m, body, status, h), LegsIn(m, logs, blockHash, h), h).Some?
  {
    hide NativeEntry, LegsIn, Entry;
    if i :| 0 <= i < |out| && out[i].hash == h {
      assert Entry(NativeEntry(m, body, status, out[i].hash), LegsIn(m, logs, blockHash, out[i].hash), out[i].hash) == Some(out[i]);
    }
  }

  /** The log is of this block, was not removed, and is a transfer of the transaction. */
  ghost predicate ProvesLeg(m: Matcher, lg: Log, blockHash: Hash, h: Hash) {
    !lg.removed && lg.blockHash == blockHash && lg.txHash == h && MatchLog(m, lg).Some?
  }

  lemma EntryMeans(m: Matcher, body: seq<BodyTx>, status: Hash -> ReceiptStatus, logs: seq<Log>, blockHash: Hash, h: Hash)
    ensures var e := Entry(NativeEntry(m, body, status, h), LegsIn(m, logs, blockHash, h), h);
            && (e.Some? <==> (MatchedIn(m, body, h) && !status(h).Vanished?) || exists lg :: lg in logs && ProvesLeg(m, lg, blockHash, h))
            && (e.Some? ==> (e.value.failed <==> MatchedIn(m, body, h) && status(h).Reverted?))
            && (e.Some? && !e.value.failed ==>
                 forall leg :: leg in e.value.transfers <==>
                   || (leg.token.None? && LegIn(m, body, h, leg) && !status(h).Vanished?)
                   || exists lg :: lg in logs && ProvesLeg(m, lg, blockHash, h) && MatchLog(m, lg) == Some(leg))
  {
    hide MatchBlockTx, NativeEntry, LegsIn;
    NativeEntryMeans(m, body, status, h);
    LegsMembers(m, logs, blockHash, h);
    LegsProved(m, logs, blockHash, h);
    MatchedHasLeg(m, body, h);
  }

  lemma MatchedHasLeg(m: Matcher, body: seq<BodyTx>, h: Hash)
    ensures forall leg :: LegIn(m, body, h, leg) ==> MatchedIn(m, body, h)
  {
    hide MatchBlockTx;
  }

  lemma LegsProved(m: Matcher, logs: seq<Log>, blockHash: Hash, h: Hash)
    ensures LegsIn(m, logs, blockHash, h) != [] <==> exists lg :: lg in logs && ProvesLeg(m, lg, blockHash, h)
    ensures forall leg :: leg in LegsIn(m, logs, blockHash, h) <==>
      exists lg :: lg in logs && ProvesLeg(m, lg, blockHash, h) && MatchLog(m, lg) == Some(leg)
  {
    hide MatchLog, LegsIn;
    LegsMembers(m, logs, blockHash, h);
    var legs := LegsIn(m, logs, blockHash, h);
    if legs != [] { assert legs[0] in legs; }
    if lg :| lg in logs && ProvesLeg(m, lg, blockHash, h) {
      assert LegOf(m, lg, blockHash, h, MatchLog(m, lg).value);
    }
    forall leg ensures leg in legs <==> exists lg :: lg in logs && ProvesLeg(m, lg, blockHash, h) && MatchLog(m, lg) == Some(leg) {
      if lg :| lg in logs && ProvesLeg(m, lg, blockHash, h) && MatchLog(m, lg) == Some(leg) {
        assert LegOf(m, lg, blockHash, h, leg);
      }
    }
  }

  lemma {:induction false} NativesMembers(legs: seq<Match>)
    ensures forall leg :: leg in Tracking.Natives(legs) <==> leg in legs && leg.token.None?
  {
    if legs == [] {
    } else {
      NativesMembers(legs[..|legs| - 1]);
      assert legs == legs[..|legs| - 1] + [legs[|legs| - 1]];
    }
  }

  /** Two scans of one block that see every matching log report the same transactions, verdicts and legs. */
  lemma ScansAgree(m: Matcher, body: seq<BodyTx>, status: Hash -> ReceiptStatus, node: seq<Log>, n: nat, blockHash: Hash,
                   a: seq<Blocks.MinedTx>, b: seq<Blocks.MinedTx>)
    requires Distinct(node) && AllVisible(m, node, n, blockHash)
    requires Reports(m, body, status, PerBlock(m, node, n), blockHash, a)
    requires Reports(m, body, status, OfBlock(node, n), blockHash, b)
    ensures forall i :: 0 <= i < |a| ==> Reported(a[i], b)
    ensures forall j :: 0 <= j < |b| ==> Reported(b[j], a)
  {
    hide *;
    forall i | 0 <= i < |a| ensures Reported(a[i], b) {
      VisibleAgree(m, node, n, blockHash, a[i].hash);
      Counterpart(m, body, status, PerBlock(m, node, n), OfBlock(node, n), blockHash, a, b, i);
    }
    forall j | 0 <= j < |b| ensures Reported(b[j], a) {
      VisibleAgree(m, node, n, blockHash, b[j].hash);
      SameLegsBack(LegsIn(m, PerBlock(m, node, n), blockHash, b[j].hash), LegsIn(m, OfBlock(node, n), blockHash, b[j].hash));
      Counterpart(m, body, status, OfBlock(node, n), PerBlock(m, node, n), blockHash, b, a, j);
    }
  }

  lemma SameLegsBack(a: seq<Match>, b: seq<Match>)
    requires SameLegs(a, b)
    ensures SameLegs(b, a)
  {
  }

  /** A report's entry has its counterpart in a report over other logs that give it the same legs. */
  lemma Counterpart(m: Matcher, body: seq<BodyTx>, status: Hash -> ReceiptStatus, logs: seq<Log>, others: seq<Log>, blockHash: Hash,
                    a: seq<Blocks.MinedTx>, b: seq<Blocks.MinedTx>, i: nat)
    requires i < |a| && Reports(m, body, status, logs, blockHash, a) && Reports(m, body, status, others, blockHash, b)
    requires SameLegs(LegsIn(m, logs, blockHash, a[i].hash), LegsIn(m, others, blockHash, a[i].hash))
    ensures Reported(a[i], b)
  {
    hide NativeEntry, LegsIn, SameLegs, SameEntry, Entry;
    var h := a[i].hash;
    var native := NativeEntry(m, body, status, h);
    NativeEntryOwn(m, body, status, h);
    OneEntry(native, LegsIn(m, logs, blockHash, h), LegsIn(m, others, blockHash, h), h);
    assert Entry(native, LegsIn(m, logs, blockHash, h), h) == Some(a[i]);
    var j :| 0 <= j < |b| && b[j].hash == h;
    assert Entry(native, LegsIn(m, others, blockHash, h), h) == Some(b[j]);
  }

  /** The report `out` has an entry for the same transaction, with the same verdict and the same legs. */
  ghost predicate Reported(e: Blocks.MinedTx, out: seq<Blocks.MinedTx>) {
    exists j :: 0 <= j < |out| && SameEntry(e, out[j])
  }

  ghost predicate SameEntry(a: Blocks.MinedTx, b: Blocks.MinedTx) {
    a.hash == b.hash && a.failed == b.failed && multiset(a.transfers) == multiset(b.transfers)
  }

  lemma OneEntry(native: Option<Blocks.MinedTx>, a: seq<Match>, b: seq<Match>, h: Hash)
    requires SameLegs(a, b) && (native.Some? ==> native.value.hash == h)
    ensures Entry(native, a, h).Some? <==> Entry(native, b, h).Some?
    ensures Entry(native, a, h).Some? ==> SameEntry(Entry(native, a, h).value, Entry(native, b, h).value)
  {
    SameBag(a, b);
    assert |multiset(a)| == |a| && |multiset(b)| == |b|;
  }

  lemma SameBag(a: seq<Match>, b: seq<Match>)
    requires SameLegs(a, b)
    ensures multiset(a) == multiset(b)
  {
    forall leg ensures multiset(a)[leg] == multiset(b)[leg] {
      CountsOnce(a, leg);
      CountsOnce(b, leg);
    }
  }

  lemma {:induction false} CountsOnce(legs: seq<Match>, leg: Match)
    requires NoRepeats(legs)
    ensures multiset(legs)[leg] == if leg in legs then 1 else 0
  {
    if legs == [] {
    } else {
      var init, last := legs[..|legs| - 1], legs[|legs| - 1];
      assert legs == init + [last];
      CountsOnce(init, leg);
      assert last !in init;
    }
  }
}
