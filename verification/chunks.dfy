/**
 Where a newest-first catch-up takes its logs from: range queries whose size halves each time the provider
 rejects one, down to one query per block.
 */
module LogChunks {
  import opened Types
  import opened Matching
  import opened Scanning

  const MIN_CHUNK: nat := 8

  function InitialLogChunk(m: Matcher): nat {
    if |m.watched| > SERVER_FILTER_MAX_ADDRESSES then 100 else 500
  }

  /** A range query starts at 500 blocks, at 100 for a watched set too large for server-side filters. */
  lemma FirstChunk(m: Matcher)
    ensures |m.watched| <= 1000 ==> InitialLogChunk(m) == 500
    ensures |m.watched| > 1000 ==> InitialLogChunk(m) == 100
  {
  }

  function Pow2(k: nat): (p: nat)
    ensures p > 0
  {
    if k == 0 then 1 else 2 * Pow2(k - 1)
  }

  /** The scan's range-query state: the last answer, where it starts, and the next query's size (0: none any more). */
  datatype Chunk = Chunk(logs: Option<map<nat, seq<Log>>>, lo: nat, size: nat)

  /** For every block from its lower end up to `n` the answer holds what the block's own query would give. */
  ghost predicate Covers(m: Matcher, node: seq<Log>, c: Chunk, n: nat) {
    c.logs.Some? && m.tokens != map[] ==> forall k :: c.lo <= k <= n ==> LogsAt(c.logs.value, k) == PerBlock(m, node, k)
  }

  /** After `failures` rejections the size has been halved that often, and never fell below the minimum. */
  ghost predicate Halved(initial: nat, size: nat, failures: nat) {
    && (size > 0 ==> size >= MIN_CHUNK && size * Pow2(failures) <= initial)
    && (failures > 0 ==> MIN_CHUNK * Pow2(failures - 1) <= initial)
  }

  lemma HalvesAgain(initial: nat, size: nat, failures: nat)
    requires Halved(initial, size, failures) && size > 0
    ensures Halved(initial, if size / 2 < MIN_CHUNK then 0 else size / 2, failures + 1)
  {
    var p := Pow2(failures);
    MulMono(2 * (size / 2), size, p);
    MulMono(MIN_CHUNK, size, p);
    Regroup(size / 2, p);
  }

  lemma MulMono(a: nat, b: nat, p: nat)
    requires a <= b
    ensures a * p <= b * p
  {
  }

  lemma Regroup(a: nat, p: nat)
    ensures a * (2 * p) == (2 * a) * p
  {
  }

  /** A provider that rejects everything sees at most six range queries, four for a huge watched set. */
  lemma FewFailures(m: Matcher, size: nat, failures: nat)
    requires Halved(InitialLogChunk(m), size, failures)
    ensures failures <= if |m.watched| > SERVER_FILTER_MAX_ADDRESSES then 4 else 6
  {
    var most := if |m.watched| > SERVER_FILTER_MAX_ADDRESSES then 4 else 6;
    assert Pow2(4) == 16 && Pow2(6) == 64;
    if failures > most { Pow2Grows(most, failures - 1); }
  }

  lemma {:induction false} Pow2Grows(a: nat, b: nat)
    requires a <= b
    ensures Pow2(a) <= Pow2(b)
  {
    if a == b {
    } else {
      Pow2Grows(a, b - 1);
    }
  }

  /** The logs handed to block `n`, after a range query ending there if the last answer does not reach it. */
  method NextLogs(m: Matcher, node: seq<Log>, from: nat, n: nat, haveReceipts: bool, c: Chunk, served: Served)
    returns (given: Option<seq<Log>>, c': Chunk, asked: bool, failed: bool)
    requires from <= n && Covers(m, node, c, n)
    ensures Covers(m, node, c', n)
    ensures given.Some? <==> !haveReceipts && c'.size > 0 && c'.logs.Some?
    ensures given.Some? ==> c'.lo <= n
    ensures given.Some? && m.tokens != map[] ==> given.value == PerBlock(m, node, n)
    ensures asked <==> !haveReceipts && c.size > 0 && (c.logs.None? || n < c.lo)
    ensures !asked ==> c' == c && !failed
    ensures failed <==> asked && m.tokens != map[] && !AllServed(m, served, n)
    ensures failed ==> c'.logs.None? && c'.size == if c.size / 2 < MIN_CHUNK then 0 else c.size / 2
    ensures asked && !failed ==> c'.logs.Some? && c'.size == c.size
    ensures asked && !failed ==> c'.lo == if n - from >= c.size then n - c.size + 1 else from
  {
    given, c', asked, failed := None, c, false, false;
    if !haveReceipts && c.size > 0 && (c.logs.None? || n < c.lo) {
      asked := true;
      var lo := from;
      if n >= c.size && lo < n - c.size + 1 {
        lo := n - c.size + 1;
      }
      var logs := FetchLogsRange(m, node, lo, n, served);
      if logs.None? {
        failed := true;
        var half := c.size / 2;
        c' := Chunk(None, c.lo, if half < MIN_CHUNK then 0 else half);
      } else {
        c' := Chunk(logs, lo, c.size);
      }
    }
    if !haveReceipts && c'.size > 0 && c'.logs.Some? {
      given := Some(LogsAt(c'.logs.value, n));
    }
  }

  /**
   The log source of every block of [from, to), newest first. Whatever queries fail, a block is handed either
   nothing, and then scans with its own receipts or query, or exactly what its own query would have returned.
   */
  method SourceBacklog(m: Matcher, node: seq<Log>, from: nat, to: nat, haveReceipts: nat -> bool, served: Served)
    returns (given: map<nat, Option<seq<Log>>>, ghost failures: nat, ghost answers: nat)
    requires from <= to
    ensures forall n :: n in given <==> from <= n < to
    ensures forall n :: n in given && given[n].Some? && m.tokens != map[] ==> given[n].value == PerBlock(m, node, n)
    ensures forall n :: n in given && haveReceipts(n) ==> given[n].None?
    ensures failures == 0 ==> forall n :: n in given && !haveReceipts(n) ==> given[n].Some?
    ensures (forall n :: from <= n < to ==> AllServed(m, served, n)) ==> failures == 0
    ensures failures > 0 ==> MIN_CHUNK * Pow2(failures - 1) <= InitialLogChunk(m)
    ensures MIN_CHUNK * answers < to - from + MIN_CHUNK
  {
    given, failures, answers := map[], 0, 0;
    var c := Chunk(None, 0, InitialLogChunk(m));
    ghost var edge := to; // the lowest block an answer has reached
    var n := to;
    assert InitialLogChunk(m) * Pow2(0) == InitialLogChunk(m);
    while n > from
      invariant from <= n <= to && Covers(m, node, c, n)
      invariant forall k :: k in given <==> n <= k < to
      invariant forall k :: k in given && given[k].Some? && m.tokens != map[] ==> given[k].value == PerBlock(m, node, k)
      invariant forall k :: k in given && haveReceipts(k) ==> given[k].None?
      invariant failures == 0 ==> c.size > 0 && forall k :: k in given && !haveReceipts(k) ==> given[k].Some?
      invariant (forall k :: from <= k < to ==> AllServed(m, served, k)) ==> failures == 0
      invariant Halved(InitialLogChunk(m), c.size, failures)
      invariant from <= edge <= to && (if c.logs.Some? then edge == c.lo else edge >= n)
      invariant if edge > from then MIN_CHUNK * answers <= to - edge else MIN_CHUNK * answers < to - from + MIN_CHUNK
    {
      n := n - 1;
      var logs, next, asked, failed := NextLogs(m, node, from, n, haveReceipts(n), c, served);
      given := given[n := logs];
      if failed {
        HalvesAgain(InitialLogChunk(m), c.size, failures);
        failures := failures + 1;
      } else if asked {
        answers, edge := answers + 1, next.lo;
      }
      c := next;
    }
  }
}
