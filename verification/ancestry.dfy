/**
 The block tree and the node's canonical chain. Block hashes commit to their header, so one function from
 hashes to headers stands for every block there ever was; the chain a node follows is the ancestry of its
 head.
 */
module Ancestry {
  import opened Types
  import opened Lifecycle
  import opened Effects
  import opened Chain

  type Tree = Hash -> HeadRef

  ghost predicate WfTree(t: Tree) {
    forall h :: t(h).hash == h && (t(h).number > 0 ==> t(t(h).parent).number + 1 == t(h).number)
  }

  /** The block at `number` on the ancestry of `head`. */
  function Anc(t: Tree, head: Hash, number: nat): Hash
    requires WfTree(t)
    decreases t(head).number
  {
    if t(head).number <= number then head else Anc(t, t(head).parent, number)
  }

  lemma {:induction false} AncNumber(t: Tree, head: Hash, number: nat)
    requires WfTree(t) && number <= t(head).number
    ensures t(Anc(t, head, number)).number == number
    decreases t(head).number
  {
    if number < t(head).number { AncNumber(t, t(head).parent, number); }
  }

  /** The ancestor of an ancestor. */
  lemma {:induction false} AncCompose(t: Tree, head: Hash, middle: nat, number: nat)
    requires WfTree(t) && number <= middle <= t(head).number
    ensures Anc(t, Anc(t, head, middle), number) == Anc(t, head, number)
    decreases t(head).number
  {
    if middle < t(head).number { AncCompose(t, t(head).parent, middle, number); }
  }

  lemma AncParent(t: Tree, head: Hash, number: nat)
    requires WfTree(t) && 0 < number <= t(head).number
    ensures Anc(t, head, number - 1) == t(Anc(t, head, number)).parent
  {
    AncNumber(t, head, number);
    AncCompose(t, head, number, number - 1);
  }

  /** `hash` is the block the chain below `head` has at `number`. */
  predicate On(t: Tree, head: Hash, number: nat, hash: Hash)
    requires WfTree(t)
  {
    number <= t(head).number && hash == Anc(t, head, number)
  }

  /** Two heads with a block in common share everything below it: agreement is downward closed. */
  lemma SharedBelow(t: Tree, a: Hash, b: Hash, fork: nat, number: nat, hash: Hash)
    requires WfTree(t) && number <= fork <= t(a).number && fork <= t(b).number
    requires Anc(t, a, fork) == Anc(t, b, fork) && On(t, a, number, hash)
    ensures On(t, b, number, hash)
  {
    AncCompose(t, a, fork, number);
    AncCompose(t, b, fork, number);
  }

  // ---------------------------------------------------------------- what must be on the chain

  /** Every tracked inclusion is in a block of `head`'s chain, at most `top`. */
  ghost predicate TxsOn(t: Tree, head: Hash, s: State, top: nat)
    requires WfTree(t)
  {
    forall h :: IsMined(s, h) ==> s.txs[h].blockNum <= top && On(t, head, s.txs[h].blockNum, s.txs[h].block)
  }

  /** Every buffered header up to `base`, or recorded `since`, is `head`'s. */
  ghost predicate HeadersOn(t: Tree, head: Hash, buf: Headers, base: nat, since: set<nat>)
    requires WfTree(t)
  {
    forall n :: n in buf && (n <= base || n in since) ==> On(t, head, n, buf[n].hash)
  }

  /** The flagship: the tip is a known block, and everything tracked or buffered below it is its ancestry. */
  ghost predicate Canonical(t: Tree, s: State, buf: Headers, tip: Option<HeadRef>)
    requires WfTree(t)
  {
    match tip
    case None => buf == map[] && forall h :: !IsMined(s, h)
    case Some(r) =>
      && t(r.hash).number == r.number
      && TxsOn(t, r.hash, s, r.number)
      && HeadersOn(t, r.hash, buf, r.number, {})
  }

  /** A chain that contains the tip carries over all of it. */
  lemma CanonicalOn(t: Tree, head: Hash, s: State, buf: Headers, r: HeadRef, fork: nat)
    requires WfTree(t) && Canonical(t, s, buf, Some(r))
    requires fork <= r.number && fork <= t(head).number && Anc(t, r.hash, fork) == Anc(t, head, fork)
    ensures HeadersOn(t, head, buf, fork, {})
    ensures forall h :: IsMined(s, h) && s.txs[h].blockNum <= fork ==> On(t, head, s.txs[h].blockNum, s.txs[h].block)
  {
    forall n | n in buf && n <= fork ensures On(t, head, n, buf[n].hash) {
      SharedBelow(t, r.hash, head, fork, n, buf[n].hash);
    }
    forall h | IsMined(s, h) && s.txs[h].blockNum <= fork ensures On(t, head, s.txs[h].blockNum, s.txs[h].block) {
      SharedBelow(t, r.hash, head, fork, s.txs[h].blockNum, s.txs[h].block);
    }
  }

  /** When the new tip is the chain's block at `top` and nothing below it is stale, the picture is canonical again. */
  lemma CanonicalAt(t: Tree, head: Hash, s: State, buf: Headers, r: HeadRef, base: nat, since: set<nat>)
    requires WfTree(t) && On(t, head, r.number, r.hash)
    requires TxsOn(t, head, s, r.number) && HeadersOn(t, head, buf, base, since)
    requires forall n :: base < n <= r.number ==> n in since
    ensures Canonical(t, s, buf, Some(r))
  {
    AncNumber(t, head, r.number);
    AncCompose(t, head, r.number, r.number);
    forall n | n in buf && n <= r.number ensures On(t, r.hash, n, buf[n].hash) {
      SharedBelow(t, head, r.hash, r.number, n, buf[n].hash);
    }
    forall h | IsMined(s, h) ensures s.txs[h].blockNum <= r.number && On(t, r.hash, s.txs[h].blockNum, s.txs[h].block) {
      SharedBelow(t, head, r.hash, r.number, s.txs[h].blockNum, s.txs[h].block);
    }
  }
}
