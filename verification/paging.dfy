/**
 The change feed and its keyset paging. A feed is the selected rows of a fixed table in query order, which is
 by update time, transaction and log index; rows equal in all three stand in an order of the engine's choice.
 */
module Paging {
  import opened Types
  import opened Storage

  datatype FeedRow = FeedRow(key: RowKey, row: Row)

  /** Resume after this position; without a hash, after every row of the instant. */
  datatype LegCursor = LegCursor(updatedAt: Time, hash: Option<Hash>, index: int)

  predicate Before(a: FeedRow, b: FeedRow) {
    || a.row.updatedAt < b.row.updatedAt
    || (a.row.updatedAt == b.row.updatedAt && (a.key.hash < b.key.hash || (a.key.hash == b.key.hash && a.key.index < b.key.index)))
  }

  predicate After(c: LegCursor, r: FeedRow) {
    if c.hash.None? then r.row.updatedAt > c.updatedAt
    else
      || r.row.updatedAt > c.updatedAt
      || (r.row.updatedAt == c.updatedAt && (r.key.hash > c.hash.value || (r.key.hash == c.hash.value && r.key.index > c.index)))
  }

  /** By update time, then transaction, then log index; a cursor at a row passes over exactly what is not after it. */
  lemma OrderMeans(a: FeedRow, b: FeedRow)
    ensures a.row.updatedAt < b.row.updatedAt ==> Before(a, b)
    ensures a.row.updatedAt == b.row.updatedAt && a.key.hash < b.key.hash ==> Before(a, b)
    ensures a.row.updatedAt == b.row.updatedAt && a.key.hash == b.key.hash ==> (Before(a, b) <==> a.key.index < b.key.index)
    ensures Before(a, b) ==> !Before(b, a)
    ensures After(CursorAt(a), b) <==> Before(a, b)
  {
  }

  function CursorAt(r: FeedRow): LegCursor { LegCursor(r.row.updatedAt, Some(r.key.hash), r.key.index) }

  /** In query order: no row comes before an earlier one. */
  ghost predicate Ordered(feed: seq<FeedRow>) {
    forall i, j :: 0 <= i < j < |feed| ==> !Before(feed[j], feed[i])
  }

  /** No two rows share update time, transaction and log index. */
  ghost predicate NoTies(feed: seq<FeedRow>) {
    forall i, j :: 0 <= i < j < |feed| ==> Before(feed[i], feed[j])
  }

  /** The rows after the cursor, in order. */
  function Rest(feed: seq<FeedRow>, c: LegCursor): seq<FeedRow> {
    if feed == [] then [] else (if After(c, feed[0]) then [feed[0]] else []) + Rest(feed[1..], c)
  }

  /** One page: at most `limit` rows after the cursor. */
  function Page(feed: seq<FeedRow>, c: LegCursor, limit: nat): seq<FeedRow> {
    var rest := Rest(feed, c);
    if |rest| <= limit then rest else rest[..limit]
  }

  /** What a backfill streams from `c` on. */
  function Drain(feed: seq<FeedRow>, c: LegCursor, page: nat): seq<FeedRow>
    requires page >= 1
    decreases |Rest(feed, c)|
  {
    var legs := Page(feed, c, page);
    if |legs| < page then legs
    else
      PageAdvances(feed, c, page);
      legs + Drain(feed, CursorAt(legs[|legs| - 1]), page)
  }

  // ---------------------------------------------------------------- rows after a cursor

  lemma {:induction false} RestConcat(a: seq<FeedRow>, b: seq<FeedRow>, c: LegCursor)
    ensures Rest(a + b, c) == Rest(a, c) + Rest(b, c)
  {
    if a == [] {
      assert a + b == b;
    } else {
      assert (a + b)[1..] == a[1..] + b;
      RestConcat(a[1..], b, c);
    }
  }

  lemma {:induction false} RestMembers(feed: seq<FeedRow>, c: LegCursor)
    ensures forall r :: r in Rest(feed, c) <==> r in feed && After(c, r)
    ensures |Rest(feed, c)| <= |feed|
  {
    if feed == [] {
    } else {
      RestMembers(feed[1..], c);
      assert feed == [feed[0]] + feed[1..];
    }
  }

  lemma {:induction false} RestOrdered(feed: seq<FeedRow>, c: LegCursor)
    requires Ordered(feed)
    ensures Ordered(Rest(feed, c))
  {
    if feed == [] {
    } else {
      RestOrdered(feed[1..], c);
      RestMembers(feed[1..], c);
      var tail := Rest(feed[1..], c);
      forall j | 0 <= j < |tail| ensures !Before(tail[j], feed[0]) {
        assert tail[j] in feed[1..];
        var k :| 0 <= k < |feed[1..]| && feed[1..][k] == tail[j];
        assert feed[k + 1] == tail[j];
      }
    }
  }

  lemma {:induction false} RestAll(feed: seq<FeedRow>, c: LegCursor)
    requires forall r :: r in feed ==> After(c, r)
    ensures Rest(feed, c) == feed
  {
    if feed == [] {
    } else {
      RestAll(feed[1..], c);
    }
  }

  lemma {:induction false} RestNone(feed: seq<FeedRow>, c: LegCursor)
    requires forall r :: r in feed ==> !After(c, r)
    ensures Rest(feed, c) == []
  {
    if feed == [] {
    } else {
      RestNone(feed[1..], c);
    }
  }

  /** Moving the cursor forward selects among the rows selected before. */
  lemma {:induction false} RestNarrows(feed: seq<FeedRow>, c: LegCursor, r: FeedRow)
    requires After(c, r)
    ensures Rest(feed, CursorAt(r)) == Rest(Rest(feed, c), CursorAt(r))
  {
    if feed == [] {
    } else {
      RestNarrows(feed[1..], c, r);
      RestConcat(if After(c, feed[0]) then [feed[0]] else [], Rest(feed[1..], c), CursorAt(r));
    }
  }

  /** The rows a full page leaves: those of the old rest that come strictly after the page's last row. */
  lemma NextRest(feed: seq<FeedRow>, c: LegCursor, page: nat)
    requires page >= 1 && |Rest(feed, c)| >= page
    ensures var rest := Rest(feed, c);
            var next := CursorAt(rest[page - 1]);
            && Page(feed, c, page) == rest[..page]
            && Rest(feed, next) == Rest(rest[..page], next) + Rest(rest[page..], next)
            && After(c, rest[page - 1])
  {
    hide After, Rest;
    var rest := Rest(feed, c);
    RestMembers(feed, c);
    assert rest[page - 1] in rest;
    RestNarrows(feed, c, rest[page - 1]);
    assert rest == rest[..page] + rest[page..];
    RestConcat(rest[..page], rest[page..], CursorAt(rest[page - 1]));
  }

  lemma {:induction false} RestDropsOne(feed: seq<FeedRow>, c: LegCursor, k: nat)
    requires k < |feed| && !After(c, feed[k])
    ensures |Rest(feed, c)| < |feed|
  {
    RestMembers(feed[1..], c);
    if k > 0 { RestDropsOne(feed[1..], c, k - 1); }
  }

  /** A full page moves the cursor: the backfill terminates. */
  lemma PageAdvances(feed: seq<FeedRow>, c: LegCursor, page: nat)
    requires page >= 1 && |Rest(feed, c)| >= page
    ensures var rest := Rest(feed, c);
            Page(feed, c, page) == rest[..page] && |Rest(feed, CursorAt(rest[page - 1]))| < |rest|
  {
    var rest := Rest(feed, c);
    RestMembers(feed, c);
    assert rest[page - 1] in rest;
    RestNarrows(feed, c, rest[page - 1]);
    NextRest(feed, c, page);
    RestDropsOne(rest, CursorAt(rest[page - 1]), page - 1);
  }

  /** In query order nothing of a page comes after its last row. */
  lemma PageBehind(rest: seq<FeedRow>, page: nat)
    requires 1 <= page <= |rest| && Ordered(rest)
    ensures Rest(rest[..page], CursorAt(rest[page - 1])) == []
  {
    forall r | r in rest[..page] ensures !After(CursorAt(rest[page - 1]), r) {
      var i :| 0 <= i < page && rest[i] == r;
      if i < page - 1 { assert !Before(rest[page - 1], rest[i]); }
    }
    RestNone(rest[..page], CursorAt(rest[page - 1]));
  }

  // ---------------------------------------------------------------- draining

  /** Without ties the concatenated pages are exactly the rows after the cursor. */
  lemma {:induction false} DrainsExactly(feed: seq<FeedRow>, c: LegCursor, page: nat)
    requires page >= 1 && NoTies(Rest(feed, c))
    ensures Drain(feed, c, page) == Rest(feed, c)
    decreases |Rest(feed, c)|
  {
    hide NoTies, Rest, Before, Drain, After;
    DrainStep(feed, c, page);
    var rest := Rest(feed, c);
    if |rest| >= page {
      PageAdvances(feed, c, page);
      NextRest(feed, c, page);
      var next := CursorAt(rest[page - 1]);
      NoTiesOrdered(rest);
      PageBehind(rest, page);
      PageAhead(rest, page);
      assert rest == rest[..page] + rest[page..];
      assert Rest(feed, next) == [] + rest[page..] == rest[page..];
      NoTiesTail(rest, page);
      DrainsExactly(feed, next, page);
    }
  }

  lemma NoTiesTail(feed: seq<FeedRow>, n: nat)
    requires NoTies(feed) && n <= |feed|
    ensures NoTies(feed[n..])
  {
  }

  /** Without ties everything past a page comes after its last row. */
  lemma PageAhead(rest: seq<FeedRow>, page: nat)
    requires 1 <= page <= |rest| && NoTies(rest)
    ensures Rest(rest[page..], CursorAt(rest[page - 1])) == rest[page..]
  {
    forall r | r in rest[page..] ensures After(CursorAt(rest[page - 1]), r) {
      var i :| 0 <= i < |rest[page..]| && rest[page..][i] == r;
      assert Before(rest[page - 1], rest[page + i]);
    }
    RestAll(rest[page..], CursorAt(rest[page - 1]));
  }

  lemma NoTiesOrdered(feed: seq<FeedRow>)
    requires NoTies(feed)
    ensures Ordered(feed)
  {
  }

  /** Whatever ties there are, a backfill never streams more rows than there are. */
  lemma {:induction false} DrainBounded(feed: seq<FeedRow>, c: LegCursor, page: nat)
    requires page >= 1 && Ordered(feed)
    ensures |Drain(feed, c, page)| <= |Rest(feed, c)|
    decreases |Rest(feed, c)|
  {
    var rest := Rest(feed, c);
    if |rest| >= page {
      PageAdvances(feed, c, page);
      NextRest(feed, c, page);
      RestOrdered(feed, c);
      PageBehind(rest, page);
      RestMembers(rest[page..], CursorAt(rest[page - 1]));
      DrainBounded(feed, CursorAt(rest[page - 1]), page);
    }
  }

  /** A page that ends between two tied rows skips the second. */
  lemma TieSkips(feed: seq<FeedRow>, c: LegCursor, page: nat)
    requires page >= 1 && Ordered(feed) && |Rest(feed, c)| > page
    requires !Before(Rest(feed, c)[page - 1], Rest(feed, c)[page])
    ensures |Drain(feed, c, page)| < |Rest(feed, c)|
  {
    var rest := Rest(feed, c);
    var next := CursorAt(rest[page - 1]);
    PageAdvances(feed, c, page);
    NextRest(feed, c, page);
    RestOrdered(feed, c);
    PageBehind(rest, page);
    assert rest[page..][0] == rest[page];
    RestDropsOne(rest[page..], next, 0);
    DrainBounded(feed, next, page);
  }

  /** Every page size drains the feed exactly, if and only if no two rows after the cursor tie. */
  lemma PagingExact(feed: seq<FeedRow>, c: LegCursor)
    requires Ordered(feed)
    ensures (forall page: nat :: page >= 1 ==> Drain(feed, c, page) == Rest(feed, c)) <==> NoTies(Rest(feed, c))
  {
    var rest := Rest(feed, c);
    if NoTies(rest) {
      forall page: nat | page >= 1 ensures Drain(feed, c, page) == rest {
        DrainsExactly(feed, c, page);
      }
    } else {
      RestOrdered(feed, c);
      var i := AdjacentTie(rest);
      TieSkips(feed, c, i);
    }
  }

  lemma Transitive(a: FeedRow, b: FeedRow, c: FeedRow)
    ensures Before(a, b) && Before(b, c) ==> Before(a, c)
  {
  }

  lemma {:induction false} AdjacentTie(feed: seq<FeedRow>) returns (i: nat)
    requires !NoTies(feed)
    ensures 1 <= i < |feed| && !Before(feed[i - 1], feed[i])
  {
    hide Before;
    var init := feed[..|feed| - 1];
    if !NoTies(init) {
      i := AdjacentTie(init);
    } else {
      i := |feed| - 1;
      if Before(feed[i - 1], feed[i]) {
        forall a, b | 0 <= a < b < |feed| ensures Before(feed[a], feed[b]) {
          if b < i { assert Before(init[a], init[b]); }
          if b == i && a < i - 1 {
            assert Before(init[a], init[i - 1]);
            Transitive(feed[a], feed[i - 1], feed[i]);
          }
        }
      }
    }
  }

  /** One indexer's feed never ties: a row's key is its transaction and log index. */
  lemma SingleIndexerNeverTies(feed: seq<FeedRow>, c: LegCursor, indexer: nat)
    requires Ordered(feed) && forall i :: 0 <= i < |feed| ==> feed[i].key.indexer == indexer
    requires forall i, j :: 0 <= i < j < |feed| ==> feed[i].key != feed[j].key
    ensures NoTies(feed)
    ensures NoTies(Rest(feed, c))
  {
    forall i, j | 0 <= i < j < |feed| ensures Before(feed[i], feed[j]) {
      assert !Before(feed[j], feed[i]) && feed[i].key != feed[j].key;
    }
    RestNoTies(feed, c);
  }

  lemma {:induction false} RestNoTies(feed: seq<FeedRow>, c: LegCursor)
    requires NoTies(feed)
    ensures NoTies(Rest(feed, c))
  {
    if feed == [] {
    } else {
      RestNoTies(feed[1..], c);
      RestMembers(feed[1..], c);
      var tail := Rest(feed[1..], c);
      forall j | 0 <= j < |tail| ensures Before(feed[0], tail[j]) {
        assert tail[j] in feed[1..];
        var k :| 0 <= k < |feed[1..]| && feed[1..][k] == tail[j];
        assert feed[k + 1] == tail[j];
      }
    }
  }

  /** Two indexers that store one leg at one instant tie in the global feed, and a page between them skips a row. */
  lemma GlobalFeedSkips(row: Row, hash: Hash, index: int)
    requires row.updatedAt > 0
    ensures var feed := [FeedRow(RowKey(1, hash, index), row), FeedRow(RowKey(2, hash, index), row)];
            Ordered(feed) && Rest(feed, LegCursor(0, None, 0)) == feed && |Drain(feed, LegCursor(0, None, 0), 1)| < 2
  {
    var feed := [FeedRow(RowKey(1, hash, index), row), FeedRow(RowKey(2, hash, index), row)];
    RestAll(feed, LegCursor(0, None, 0));
    TieSkips(feed, LegCursor(0, None, 0), 1);
  }

  // ---------------------------------------------------------------- the loops

  /** Streams the stored rows updated after `since`, page by page until a short page. */
  method Backfill(feed: seq<FeedRow>, since: Time, page: nat) returns (streamed: seq<FeedRow>)
    requires page >= 1
    ensures streamed == Drain(feed, LegCursor(since, None, 0), page)
    ensures NoTies(feed) ==> streamed == Rest(feed, LegCursor(since, None, 0))
    ensures NoTies(feed) ==> NoTies(streamed) && forall r :: r in streamed <==> r in feed && r.row.updatedAt > since
  {
    hide Drain, Rest, Page, NoTies;
    RestSince(feed, since);
    var cursor := LegCursor(since, None, 0);
    if NoTies(feed) {
      RestNoTies(feed, cursor);
      DrainsExactly(feed, cursor, page);
    }
    ghost var whole := Drain(feed, cursor, page);
    streamed := [];
    while true
      invariant whole == streamed + Drain(feed, cursor, page)
      decreases |Rest(feed, cursor)|
    {
      var legs := Page(feed, cursor, page);
      DrainStep(feed, cursor, page);
      streamed := streamed + legs;
      if |legs| < page {
        return;
      }
      cursor := CursorAt(legs[|legs| - 1]);
    }
  }

  /** The rows after an instant are the ones updated later. */
  lemma RestSince(feed: seq<FeedRow>, since: Time)
    ensures forall r :: r in Rest(feed, LegCursor(since, None, 0)) <==> r in feed && r.row.updatedAt > since
  {
    RestMembers(feed, LegCursor(since, None, 0));
  }

  lemma DrainStep(feed: seq<FeedRow>, c: LegCursor, page: nat)
    requires page >= 1
    ensures var legs := Page(feed, c, page);
            if |legs| < page then Drain(feed, c, page) == legs
            else Drain(feed, c, page) == legs + Drain(feed, CursorAt(legs[|legs| - 1]), page)
                 && |Rest(feed, CursorAt(legs[|legs| - 1]))| < |Rest(feed, c)|
  {
    if |Page(feed, c, page)| >= page { PageAdvances(feed, c, page); }
  }

  function Backwards(s: seq<FeedRow>): (r: seq<FeedRow>)
    ensures |r| == |s| && forall i :: 0 <= i < |s| ==> r[i] == s[|s| - 1 - i]
  {
    seq(|s|, i requires 0 <= i < |s| => s[|s| - 1 - i])
  }

  /** Turns a newest-first answer around in place. */
  method ReverseInPlace(out: array<FeedRow>)
    modifies out
    ensures out[..] == Backwards(old(out[..]))
  {
    var i, j := 0, out.Length - 1;
    while i < j
      invariant 0 <= i <= out.Length && j == out.Length - 1 - i && i <= j + 1
      invariant forall k :: 0 <= k < i || j < k < out.Length ==> out[k] == old(out[out.Length - 1 - k])
      invariant forall k :: i <= k <= j ==> out[k] == old(out[k])
      decreases j - i
    {
      out[i], out[j] := out[j], out[i];
      i, j := i + 1, j - 1;
    }
  }

  /** The most recently updated rows, oldest of them first. */
  method LoadLatestLegs(feed: seq<FeedRow>, limit: nat) returns (out: array<FeedRow>)
    ensures fresh(out)
    ensures out[..] == if |feed| <= limit then feed else feed[|feed| - limit..]
  {
    var newestFirst := Backwards(feed);
    var n := if |feed| <= limit then |feed| else limit;
    out := new FeedRow[n](i requires 0 <= i < n => newestFirst[i]);
    ghost var fetched := out[..];
    assert fetched == newestFirst[..n];
    ReverseInPlace(out);
    assert out[..] == feed[|feed| - n..];
  }
}
