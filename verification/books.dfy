/**
 The books of a scan: which block numbers were processed, on which side of a fork, and in which order. They
 are what "no block is skipped" and "each exactly once" are stated about.
 */
module Books {
  import opened Types
  import opened Invariant

  /**
   `start` is the first block ever processed, `scanned` the numbers scanned on the current chain, `log` the
   processing order. `base` is the fork point of the current step, `since` what was recorded after it, and
   `top` the highest number a tracked inclusion may have.
   */
  datatype Book = Book(start: nat, scanned: set<nat>, log: seq<nat>, base: nat, since: set<nat>, top: nat)
  {
    /** Block `n` was processed. */
    ghost function Entered(n: nat): Book {
      Book(start, scanned + {n}, log + [n], base, since + {n}, if n > top then n else top)
    }

    /** The blocks [lo, hi) were processed, ascending. */
    ghost function EnteredUpward(lo: nat, hi: nat): Book {
      if hi <= lo then this else EnteredUpward(lo, hi - 1).Entered(hi - 1)
    }

    /** A step begins at fork point `fork`: what was scanned above it is void. */
    ghost function Forked(fork: nat): Book {
      Book(start, (set n | n in scanned && n <= fork), log, fork, {}, fork)
    }

    /** A step begins on top of `number`. */
    ghost function Anchored(number: nat): Book {
      Book(start, scanned, log, number, {}, number)
    }

    /** No number from the first block up to `last` is missing. */
    ghost predicate NoGap(last: nat) {
      forall n :: start <= n <= last ==> n in scanned
    }
  }

  lemma {:induction false} UpwardBooks(b: Book, lo: nat, hi: nat)
    requires lo <= hi
    ensures var b' := b.EnteredUpward(lo, hi);
            && b'.start == b.start && b'.base == b.base
            && b'.top == (if lo < hi && hi - 1 > b.top then hi - 1 else b.top)
            && |b'.log| == |b.log| + (hi - lo) && b.log <= b'.log
            && (forall i :: |b.log| <= i < |b'.log| ==> b'.log[i] == lo + (i - |b.log|))
            && (forall n :: n in b'.scanned <==> n in b.scanned || lo <= n < hi)
            && (forall n :: n in b'.since <==> n in b.since || lo <= n < hi)
    decreases hi
  {
    if lo < hi { UpwardBooks(b, lo, hi - 1); }
  }

  /** Every number of [lo, hi] occurs in the processing order exactly once, and no other number does. */
  ghost predicate ExactlyOnce(order: seq<nat>, lo: nat, hi: nat) {
    NoDup(order) && forall n :: n in order <==> lo <= n <= hi
  }

  function MaxNat(a: nat, b: nat): nat { if a > b then a else b }

  /** The books while a catch-up has processed exactly [next, highest]. */
  ghost predicate CaughtUp(b0: Book, b: Book, next: nat, highest: nat) {
    && b.start == b0.start && b.base == b0.base && highest <= b.top && b0.top <= b.top <= MaxNat(b0.top, highest)
    && b0.scanned <= b.scanned
    && (forall n :: next <= n <= highest ==> n in b.scanned && n in b.since)
    && b0.log <= b.log && ExactlyOnce(b.log[|b0.log|..], next, highest)
  }

  lemma ForkBooks(b: Book, fork: nat, done: nat)
    requires fork + 1 <= done
    ensures var b' := b.Forked(fork).EnteredUpward(fork + 1, done);
            && b'.start == b.start && b'.base == fork && b'.top == done - 1
            && (forall n :: n in b'.scanned <==> (n in b.scanned && n <= fork) || fork < n < done)
            && (forall n :: n in b'.since <==> fork < n < done)
  {
    UpwardBooks(b.Forked(fork), fork + 1, done);
  }

  /**
   A reorg entered with `lastProcessed` behind the tip, after an interrupted catch-up, sets it to the
   ancestor all the same. Nothing is skipped exactly when the ancestor is not past the unscanned frontier.
   */
  lemma ReorgSkips(b: Book, last: nat, fork: nat, head: nat)
    requires b.NoGap(last) && b.start <= last + 1 && last + 1 !in b.scanned && fork <= head
    ensures b.Forked(fork).EnteredUpward(fork + 1, head + 1).NoGap(head) <==> fork <= last
  {
    ForkBooks(b, fork, head + 1);
  }

  lemma CaughtUpStart(b0: Book, b: Book, from: nat, head: nat)
    requires b == b0.Entered(head)
    ensures CaughtUp(b0, b, head, head)
  {
    assert b.log[|b0.log|..] == [head];
  }

  lemma NoDupConcat(a: seq<nat>, b: seq<nat>)
    requires NoDup(a) && NoDup(b) && forall n :: n in a ==> n !in b
    ensures NoDup(a + b)
  {
    forall i, j | 0 <= i < j < |a + b| ensures (a + b)[i] != (a + b)[j] {
      if i < |a| <= j { assert a[i] in a && b[j - |a|] in b; }
    }
  }

  lemma SegmentStep(done: seq<nat>, live: seq<nat>, next: nat, reached: nat, highest: nat)
    requires ExactlyOnce(done, next, reached) && 0 < next <= reached <= highest
    requires |live| == highest - reached && forall i :: 0 <= i < |live| ==> live[i] == reached + 1 + i
    ensures ExactlyOnce(done + live + [next - 1], next - 1, highest)
  {
    forall n ensures n in live <==> reached < n <= highest {
      if reached < n <= highest { assert live[n - reached - 1] == n; }
    }
    NoDupConcat(done, live);
    NoDupConcat(done + live, [next - 1]);
  }

  lemma CaughtUpFacts(b0: Book, b: Book, next: nat, highest: nat)
    requires CaughtUp(b0, b, next, highest)
    ensures b0.scanned <= b.scanned && b.start == b0.start && b.base == b0.base
    ensures highest <= b.top && b0.top <= b.top <= MaxNat(b0.top, highest)
    ensures forall n :: next <= n <= highest ==> n in b.scanned && n in b.since
    ensures b0.log <= b.log && ExactlyOnce(b.log[|b0.log|..], next, highest)
  {
  }

  lemma CaughtUpStep(b0: Book, b1: Book, b: Book, next: nat, reached: nat, highest: nat)
    requires CaughtUp(b0, b1, next, reached) && 0 < next <= reached <= highest
    requires b == b1.EnteredUpward(reached + 1, highest + 1).Entered(next - 1)
    ensures CaughtUp(b0, b, next - 1, highest)
  {
    hide ExactlyOnce;
    UpwardBooks(b1, reached + 1, highest + 1);
    var b2 := b1.EnteredUpward(reached + 1, highest + 1);
    var done, live := b1.log[|b0.log|..], b2.log[|b1.log|..];
    assert b.log[|b0.log|..] == done + live + [next - 1];
    forall i | 0 <= i < |live| ensures live[i] == reached + 1 + i {
      assert live[i] == b2.log[|b1.log| + i];
    }
    SegmentStep(done, live, next, reached, highest);
  }

  lemma {:induction false} UpwardJoins(b: Book, lo: nat, mid: nat, hi: nat)
    requires lo <= mid <= hi
    ensures b.EnteredUpward(lo, mid).EnteredUpward(mid, hi) == b.EnteredUpward(lo, hi)
    decreases hi
  {
    if mid < hi { UpwardJoins(b, lo, mid, hi - 1); }
  }

  lemma NoGapBelow(b: Book, last: nat, fork: nat)
    ensures b.NoGap(last) && fork <= last ==> b.NoGap(fork)
  {
  }

  lemma NothingUp(b: Book, lo: nat)
    ensures b.EnteredUpward(lo, lo) == b
  {
  }
}
