/**
 What one lifecycle pass does, act by act, as a relation between the journals around it and the answers it got;
 and where the confirmed events of a stretch of the journal come from.
 */
module Passes {
  import opened Types
  import opened Lifecycle
  import opened Invariant
  import opened Effects
  import opened Blocks
  import Tombstones
  import Safety
  import opened Tracking
  import opened Chain
  import opened Ancestry
  import opened Journal
  import opened Film
  import opened Nodes

  /**
   The pass in pieces: the candidates in the order the tracker listed them, the instant staleness was measured
   at, and what each receipt check, promotion and fate added to the journal.
   */
  datatype PassLog = PassLog(
    confirm: seq<Hash>, stale: seq<Hash>, now: Time,
    verdicts: seq<seq<Act>>, promotions: seq<seq<Act>>, fates: seq<seq<Act>>)

  ghost predicate Verdicts(w: World, tip: Option<HeadRef>, q: nat, checks: seq<Check>, head: nat, fin: nat, verdicts: seq<seq<Act>>) {
    && |verdicts| <= |checks|
    && (forall j :: 0 <= j < |verdicts| ==> Verdict(tip, checks[j], w.receipt(q + j, checks[j].hash), head, fin, verdicts[j]))
  }

  /** The receipt checks were applied in order, up to the first unclear answer. */
  ghost predicate ChecksApplied(w: World, tip: Option<HeadRef>, q: nat, checks: seq<Check>, head: nat, fin: nat, verdicts: seq<seq<Act>>) {
    && Verdicts(w, tip, q, checks, head, fin, verdicts)
    && (|verdicts| < |checks| ==> w.receipt(q + |verdicts|, checks[|verdicts|].hash).Refused?)
  }

  ghost predicate PromotedAt(cfg: Config, origin: State, w: World, tip: Option<HeadRef>, q: nat, hashes: seq<Hash>, fin: nat,
                             acts: seq<Act>, promotions: seq<seq<Act>>, j: nat)
    requires j < |promotions| <= |hashes|
  {
    Promotion(tip, Run(cfg, origin, acts + Flat(promotions[..j])).s, hashes[j], w.receipt(q + j, hashes[j]), fin, promotions[j])
  }

  ghost predicate Promotions(cfg: Config, origin: State, w: World, tip: Option<HeadRef>, q: nat, hashes: seq<Hash>, fin: nat,
                             acts: seq<Act>, promotions: seq<seq<Act>>)
  {
    && |promotions| <= |hashes|
    && forall j :: 0 <= j < |promotions| ==> PromotedAt(cfg, origin, w, tip, q, hashes, fin, acts, promotions, j)
  }

  ghost predicate PromotionsApplied(cfg: Config, origin: State, w: World, tip: Option<HeadRef>, q: nat, hashes: seq<Hash>, fin: nat,
                                    acts: seq<Act>, promotions: seq<seq<Act>>)
  {
    && Promotions(cfg, origin, w, tip, q, hashes, fin, acts, promotions)
    && (|promotions| < |hashes| ==> w.receipt(q + |promotions|, hashes[|promotions|]).Refused?)
  }

  ghost predicate Fates(w: World, q: nat, unmined: seq<Hash>, fin: nat, fates: seq<seq<Act>>) {
    && |fates| <= |unmined|
    && forall j :: 0 <= j < |fates| ==> Fate(unmined[j], w.presence(q + j, unmined[j]), fin, fates[j])
  }

  ghost predicate FatesApplied(w: World, q: nat, unmined: seq<Hash>, fin: nat, fates: seq<seq<Act>>) {
    && Fates(w, q, unmined, fin, fates)
    && (|fates| < |unmined| ==> w.presence(q + |fates|, unmined[|fates|]).Unclear?)
  }

  /** The recheck of pending transactions: all receipts first, then the presence of those without one. */
  ghost predicate RecheckOf(cfg: Config, origin: State, w: World, tip: Option<HeadRef>, q: nat, hashes: seq<Hash>, fin: nat,
                            a: seq<Act>, b: seq<Act>, promotions: seq<seq<Act>>, fates: seq<seq<Act>>, ok: bool)
  {
    var unmined := Unmined(w, q, hashes);
    && b == a + Flat(promotions) + Flat(fates)
    && PromotionsApplied(cfg, origin, w, tip, q, hashes, fin, a, promotions)
    && (if |promotions| < |hashes| then !ok && fates == []
        else FatesApplied(w, q + |hashes|, unmined, fin, fates) && (ok <==> |fates| == |unmined|))
  }

  /**
   The whole pass: exactly the transactions past the threshold, in blocks the scan has reached, have their
   receipts checked; then exactly the stale and the restored ones are rechecked. `ok` unless an answer was unclear.
   */
  ghost predicate PassOf(cfg: Config, origin: State, w: World, tip: Option<HeadRef>, restored: seq<Hash>, head: nat, floor: nat,
                         fin: nat, q: nat, a: seq<Act>, b: seq<Act>, log: PassLog, ok: bool)
  {
    var s := Run(cfg, origin, a).s;
    var checks := ChecksOf(s, log.confirm, floor);
    var mid := a + Flat(log.verdicts);
    && NoDup(log.confirm) && (forall h :: h in log.confirm <==> Candidate(cfg, s, h, head, fin))
    && NoDup(log.stale) && (forall h :: h in log.stale <==> Tracking.Stale(cfg, s, h, log.now))
    && ChecksApplied(w, tip, q, checks, head, fin, log.verdicts)
    && (if |log.verdicts| < |checks| then !ok && log.promotions == [] && log.fates == [] && b == mid
        else RecheckOf(cfg, origin, w, tip, q + |checks|, log.stale + Unlisted(restored, log.stale), fin, mid, b,
                       log.promotions, log.fates, ok))
  }

  // ---------------------------------------------------------------- flattened segments

  lemma FlatSnoc(segs: seq<seq<Act>>, seg: seq<Act>)
    ensures Flat(segs + [seg]) == Flat(segs) + seg
  {
    assert (segs + [seg])[..|segs|] == segs;
  }

  lemma ChecksEnd(w: World, tip: Option<HeadRef>, q: nat, checks: seq<Check>, head: nat, fin: nat, verdicts: seq<seq<Act>>)
    requires Verdicts(w, tip, q, checks, head, fin, verdicts)
    requires |verdicts| < |checks| ==> w.receipt(q + |verdicts|, checks[|verdicts|].hash).Refused?
    ensures ChecksApplied(w, tip, q, checks, head, fin, verdicts) && |verdicts| <= |checks|
  {
    hide Verdict;
  }

  lemma PromotionsEnd(cfg: Config, origin: State, w: World, tip: Option<HeadRef>, q: nat, hashes: seq<Hash>, fin: nat,
                      acts: seq<Act>, promotions: seq<seq<Act>>)
    requires Promotions(cfg, origin, w, tip, q, hashes, fin, acts, promotions)
    requires |promotions| < |hashes| ==> w.receipt(q + |promotions|, hashes[|promotions|]).Refused?
    ensures PromotionsApplied(cfg, origin, w, tip, q, hashes, fin, acts, promotions) && |promotions| <= |hashes|
  {
    hide PromotedAt;
  }

  lemma FatesEnd(w: World, q: nat, unmined: seq<Hash>, fin: nat, fates: seq<seq<Act>>)
    requires Fates(w, q, unmined, fin, fates)
    requires |fates| < |unmined| ==> w.presence(q + |fates|, unmined[|fates|]).Unclear?
    ensures FatesApplied(w, q, unmined, fin, fates) && |fates| <= |unmined|
  {
    hide Fate;
  }

  lemma FatesSnoc(w: World, q: nat, unmined: seq<Hash>, fin: nat, fates: seq<seq<Act>>, seg: seq<Act>)
    requires |fates| < |unmined| && Fates(w, q, unmined, fin, fates)
    requires Fate(unmined[|fates|], w.presence(q + |fates|, unmined[|fates|]), fin, seg)
    ensures Fates(w, q, unmined, fin, fates + [seg])
  {
  }

  lemma ChecksSnoc(w: World, tip: Option<HeadRef>, q: nat, checks: seq<Check>, head: nat, fin: nat, verdicts: seq<seq<Act>>, seg: seq<Act>)
    requires |verdicts| < |checks| && Verdicts(w, tip, q, checks, head, fin, verdicts)
    requires Verdict(tip, checks[|verdicts|], w.receipt(q + |verdicts|, checks[|verdicts|].hash), head, fin, seg)
    ensures Verdicts(w, tip, q, checks, head, fin, verdicts + [seg])
  {
  }

  lemma PromotionsSnoc(cfg: Config, origin: State, w: World, tip: Option<HeadRef>, q: nat, hashes: seq<Hash>, fin: nat,
                       acts: seq<Act>, promotions: seq<seq<Act>>, seg: seq<Act>)
    requires |promotions| < |hashes| && Promotions(cfg, origin, w, tip, q, hashes, fin, acts, promotions)
    requires Promotion(tip, Run(cfg, origin, acts + Flat(promotions)).s, hashes[|promotions|],
                       w.receipt(q + |promotions|, hashes[|promotions|]), fin, seg)
    ensures Promotions(cfg, origin, w, tip, q, hashes, fin, acts, promotions + [seg])
  {
    hide PromotedAt, Promotion, Run, Flat;
    forall j | 0 <= j < |promotions + [seg]| ensures PromotedAt(cfg, origin, w, tip, q, hashes, fin, acts, promotions + [seg], j) {
      if j < |promotions| {
        PromotedStays(cfg, origin, w, tip, q, hashes, fin, acts, promotions, seg, j);
      } else {
        PromotedLast(cfg, origin, w, tip, q, hashes, fin, acts, promotions, seg);
      }
    }
  }

  lemma PromotedStays(cfg: Config, origin: State, w: World, tip: Option<HeadRef>, q: nat, hashes: seq<Hash>, fin: nat,
                      acts: seq<Act>, promotions: seq<seq<Act>>, seg: seq<Act>, j: nat)
    requires j < |promotions| < |hashes| && PromotedAt(cfg, origin, w, tip, q, hashes, fin, acts, promotions, j)
    ensures PromotedAt(cfg, origin, w, tip, q, hashes, fin, acts, promotions + [seg], j)
  {
    hide Promotion, Run, Flat;
    assert (promotions + [seg])[..j] == promotions[..j];
  }

  lemma PromotedLast(cfg: Config, origin: State, w: World, tip: Option<HeadRef>, q: nat, hashes: seq<Hash>, fin: nat,
                     acts: seq<Act>, promotions: seq<seq<Act>>, seg: seq<Act>)
    requires |promotions| < |hashes|
    requires Promotion(tip, Run(cfg, origin, acts + Flat(promotions)).s, hashes[|promotions|],
                       w.receipt(q + |promotions|, hashes[|promotions|]), fin, seg)
    ensures PromotedAt(cfg, origin, w, tip, q, hashes, fin, acts, promotions + [seg], |promotions|)
  {
    hide Promotion, Run, Flat;
    assert (promotions + [seg])[..|promotions|] == promotions;
  }

  // ---------------------------------------------------------------- where confirmations come from

  /**
   What answer `q` says about a confirmed event of an act that counts from `tip`: the node served the block it was
   found in, or a receipt naming it; and the event does not overstate its depth below the tip.
   */
  ghost predicate Witnessed(w: World, sp: Span, q: nat, tip: Option<HeadRef>, a: Act, e: Event) {
    && |sp.lo| <= q < |sp.hi| && DepthHeld(tip, a, e)
    && match a
       case Processed(b, _) =>
         && ((sp.hi[q] == ForBlock(b.number) && w.block(q, b.number) == Some(b)) || (sp.hi[q] == ForHead && w.announced(q) == Some(b)))
         && e.blockHash == b.hash && e.blockNumber == b.number
       case Took(i, _) =>
         && sp.hi[q] == ForReceipt(e.TxHash())
         && w.receipt(q, e.TxHash()).Served? && w.receipt(q, e.TxHash()).value.blockHash == e.blockHash
         && ((i.Verified? && sp.floor <= e.blockNumber <= i.headNumber)
             || (i.FoundMined? && w.receipt(q, e.TxHash()).value.blockNumber == e.blockNumber && !w.receipt(q, e.TxHash()).value.failed))
       case Landed(_, _) => false
  }

  lemma ActConfirms(cfg: Config, origin: State, w: World, sp: Span, tip: Option<HeadRef>, acts: seq<Act>, k: nat, e: Event)
    returns (q: nat)
    requires k < |acts| && GroundedAt(cfg, origin, w, sp, acts, k)
    requires var s := Run(cfg, origin, acts[..k]).s; Inv(s) && ActOk(cfg, s, acts[k]) && e in Perform(cfg, s, acts[k]).1
    requires CountsFrom(tip, acts[k]) && e.typ == Confirmed
    ensures Witnessed(w, sp, q, tip, acts[k], e)
  {
    hide Run, Inv, Process, Step, WellFormed, WellScanned, Candidate, Known;
    var s, a := Run(cfg, origin, acts[..k]).s, acts[k];
    ConfirmsFrom(cfg, s, tip, a, e);
    match a
    case Processed(b, m) =>
      Safety.ProcessSafe(cfg, s, b, m);
      q :| |sp.lo| <= q < |sp.hi| && Source(w, q, sp.hi[q], s, a);
    case Took(i, _) =>
      StepConfirms(cfg, s, i, e);
      q :| |sp.lo| <= q < |sp.hi| && Source(w, q, sp.hi[q], s, a);
  }

  /**
   Every confirmed event of a grounded stretch of the journal has an answer of the node behind it, to a request
   that asked for it: a served block, or a receipt naming the event's block, which for a verified inclusion is at
   or above the scan floor. It never overstates the block's depth below the tip the earlier acts left.
   */
  lemma ConfirmedIsWitnessed(cfg: Config, origin: State, w: World, sp: Span, depth: nat, boot: Boot, a: seq<Act>, b: seq<Act>, j: nat)
    returns (k: nat, q: nat)
    requires Inv(origin) && Lawful(cfg, origin, b) && Grounded(cfg, origin, w, sp, a, b) && depth > 0 && DepthTrue(depth, boot, b)
    requires |Run(cfg, origin, a).evs| <= j < |Run(cfg, origin, b).evs| && Run(cfg, origin, b).evs[j].typ == Confirmed
    ensures |a| <= k < |b| && EmittedBy(cfg, origin, b, k, Run(cfg, origin, b).evs[j])
    ensures Witnessed(w, sp, q, TipOf(depth, boot, b[..k]), b[k], Run(cfg, origin, b).evs[j])
  {
    hide Run, Inv, Perform, ActOk, Witnessed, GroundedAt, TipOf, CountsFrom;
    assert b[..|a|] == a;
    k := EmittedLater(cfg, origin, b, |a|, j);
    LawfulPrefix(cfg, origin, b, k);
    RunKeepsInv(cfg, origin, b[..k]);
    q := ActConfirms(cfg, origin, w, sp, TipOf(depth, boot, b[..k]), b, k, Run(cfg, origin, b).evs[j]);
  }
}
