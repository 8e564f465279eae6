/** The lifecycle grammar over whole runs from a fresh tracker, as a consumer of the event stream sees it. */
module Grammar {
  import opened Types
  import opened Tombstones
  import opened Lifecycle
  import opened Invariant
  import opened Effects

  /** The latest event of a transaction, and how many burials there had been just after it. */
  datatype Past = Past(typ: EventType, at: nat)

  datatype Trace = Trace(s: State, past: map<Hash, Past>)

  ghost function Owners(evs: seq<Event>): set<Hash> {
    set e | e in evs :: e.TxHash()
  }

  ghost function Record(past: map<Hash, Past>, evs: seq<Event>, at: nat): map<Hash, Past> {
    map h | h in past.Keys + Owners(evs) ::
      if EventsFor(evs, h) != [] then Past(EventsFor(evs, h)[0].typ, at) else if h in past then past[h] else Past(Pending, at)
  }

  ghost function Advance(cfg: Config, t: Trace, i: Input): Trace {
    var (s', evs) := Step(cfg, t.s, i);
    Trace(s', Record(t.past, evs, t.s.memory.last + 1))
  }

  ghost function Play(cfg: Config, inputs: seq<Input>): Trace {
    if inputs == [] then Trace(FRESH, map[])
    else Advance(cfg, Play(cfg, inputs[..|inputs| - 1]), inputs[|inputs| - 1])
  }

  ghost predicate WellFormedRun(cfg: Config, inputs: seq<Input>) {
    forall k :: 0 <= k < |inputs| ==> WellFormed(Play(cfg, inputs[..k]).s, inputs[k])
  }

  /** What the k-th input of a run emitted for `h`. */
  ghost function EmittedAt(cfg: Config, inputs: seq<Input>, k: nat, h: Hash): seq<Event>
    requires k < |inputs|
  {
    EventsFor(Step(cfg, Play(cfg, inputs[..k]).s, inputs[k]).1, h)
  }

  ghost function BurialsBefore(cfg: Config, inputs: seq<Input>, k: nat): nat
    requires k <= |inputs|
  {
    Play(cfg, inputs[..k]).s.memory.last
  }

  // ---------------------------------------------------------------- state and stream agree

  ghost predicate StillBuried(m: Memory, h: Hash, types: set<EventType>, at: nat) {
    (h in m.live && m.live[h].typ in types && m.live[h].seqNo >= at) || m.last >= at + CAP
  }

  /** The tracked state of `h` is the one its latest event announced. */
  ghost predicate Chronicled(t: Trace, h: Hash) {
    && (h in t.past ==> t.past[h].at <= t.s.memory.last + 1)
    && (IsMined(t.s, h) ==> h in t.past && t.past[h].typ == Mined)
    && (IsPending(t.s, h) ==> h in t.past && t.past[h].typ in {Pending, Reorged})
    && (h in t.past && t.past[h].typ == Confirmed ==> StillBuried(t.s.memory, h, {Confirmed}, t.past[h].at))
    && (h in t.past && t.past[h].typ in {Failed, Replaced} ==> StillBuried(t.s.memory, h, {Failed, Replaced}, t.past[h].at))
    && (h in t.past && t.past[h].typ == Mined ==> IsMined(t.s, h))
  }

  lemma RecordLooksUp(past: map<Hash, Past>, evs: seq<Event>, at: nat, h: Hash)
    ensures EventsFor(evs, h) != [] ==> h in Record(past, evs, at) && Record(past, evs, at)[h] == Past(EventsFor(evs, h)[0].typ, at)
    ensures EventsFor(evs, h) == [] ==> (h in Record(past, evs, at) <==> h in past) && (h in past ==> Record(past, evs, at)[h] == past[h])
  {
    if EventsFor(evs, h) != [] {
      OwnsFirst(evs, h);
    } else {
      forall e | e in evs && e.TxHash() == h ensures false { EventsForMembers(evs, e); }
    }
  }

  lemma {:induction false} OwnsFirst(evs: seq<Event>, h: Hash)
    requires EventsFor(evs, h) != []
    ensures h in Owners(evs)
  {
    if evs[0].TxHash() == h {
      assert evs[0] in evs;
    } else {
      OwnsFirst(evs[1..], h);
      assert evs == [evs[0]] + evs[1..];
    }
  }

  lemma AdvanceChronicles(cfg: Config, t: Trace, i: Input, h: Hash)
    requires Inv(t.s) && WellFormed(t.s, i) && Chronicled(t, h)
    ensures Inv(Advance(cfg, t, i).s) && Chronicled(Advance(cfg, t, i), h)
  {
    hide Inv, WellFormed, Record, Owners, EventsFor;
    StepKeepsInv(cfg, t.s, i);
    var (s', evs) := Step(cfg, t.s, i);
    StepEffect(cfg, t.s, i, h);
    RecordLooksUp(t.past, evs, t.s.memory.last + 1, h);
  }

  lemma FreshChronicles(h: Hash)
    ensures Inv(FRESH) && Chronicled(Trace(FRESH, map[]), h)
  {
  }

  lemma {:induction false} PlayChronicles(cfg: Config, inputs: seq<Input>, h: Hash)
    requires WellFormedRun(cfg, inputs)
    ensures Inv(Play(cfg, inputs).s) && Chronicled(Play(cfg, inputs), h)
  {
    hide Inv, Chronicled, Advance, WellFormed;
    if inputs == [] {
      FreshChronicles(h);
    } else {
      var init, last := inputs[..|inputs| - 1], inputs[|inputs| - 1];
      PrefixWellFormed(cfg, inputs, |inputs| - 1);
      PlayChronicles(cfg, init, h);
      AdvanceChronicles(cfg, Play(cfg, init), last, h);
    }
  }

  lemma PrefixWellFormed(cfg: Config, inputs: seq<Input>, n: nat)
    requires WellFormedRun(cfg, inputs) && n <= |inputs|
    ensures WellFormedRun(cfg, inputs[..n])
  {
    forall k | 0 <= k < n ensures WellFormed(Play(cfg, inputs[..n][..k]).s, inputs[..n][k]) {
      assert inputs[..n][..k] == inputs[..k];
      assert inputs[..n][k] == inputs[k];
    }
  }

  // ---------------------------------------------------------------- the grammar of the stream

  /** May an event of type `typ` follow `h`'s stream so far? */
  ghost predicate MayFollow(t: Trace, h: Hash, typ: EventType) {
    && (typ == Reorged ==> h in t.past && t.past[h].typ == Mined)
    && (typ in {Dropped, Replaced} ==> h in t.past && t.past[h].typ in {Pending, Reorged})
    && (typ == Pending && h in t.past ==> t.past[h].typ != Mined)
    && (typ == Pending && h in t.past && t.past[h].typ in {Failed, Replaced} ==> t.s.memory.last >= t.past[h].at + CAP)
    && (h in t.past && t.past[h].typ == Confirmed ==> t.s.memory.last >= t.past[h].at + CAP)
  }

  lemma EffectFollows(t: Trace, s': State, evs: seq<Event>, h: Hash)
    requires Chronicled(t, h) && Effect(t.s, s', evs, h) && EventsFor(evs, h) != []
    ensures MayFollow(t, h, EventsFor(evs, h)[0].typ)
  {
  }

  /**
   In every run from a fresh tracker: the events one input emits for one transaction are all of one
   type; `reorged` follows `mined` directly; `dropped` and `replaced` follow `pending` or `reorged`
   directly; `pending` never follows `mined`; after `failed` or `replaced` no `pending`, and after
   `confirmed` nothing at all, before `CAP` further burials.
   */
  lemma StreamGrammar(cfg: Config, inputs: seq<Input>, k: nat, h: Hash)
    requires WellFormedRun(cfg, inputs) && k < |inputs|
    requires EmittedAt(cfg, inputs, k, h) != []
    ensures Uniform(EmittedAt(cfg, inputs, k, h))
    ensures MayFollow(Play(cfg, inputs[..k]), h, EmittedAt(cfg, inputs, k, h)[0].typ)
  {
    var t := Play(cfg, inputs[..k]);
    PrefixWellFormed(cfg, inputs, k);
    PlayChronicles(cfg, inputs[..k], h);
    StepEffect(cfg, t.s, inputs[k], h);
    var (s', evs) := Step(cfg, t.s, inputs[k]);
    EffectFollows(t, s', evs, h);
  }

  // ---------------------------------------------------------------- confirmed at most once per CAP burials

  /** One more input: what `h`'s past becomes, and that burials only accumulate. */
  lemma PastGrows(cfg: Config, inputs: seq<Input>, n: nat, h: Hash)
    requires WellFormedRun(cfg, inputs) && n < |inputs|
    ensures var t, t', own := Play(cfg, inputs[..n]), Play(cfg, inputs[..n + 1]), EmittedAt(cfg, inputs, n, h);
            && t.s.memory.last <= t'.s.memory.last
            && (own != [] ==> h in t'.past && t'.past[h] == Past(own[0].typ, t.s.memory.last + 1))
            && (own == [] ==> (h in t'.past <==> h in t.past) && (h in t.past ==> t'.past[h] == t.past[h]))
  {
    assert inputs[..n + 1][..n] == inputs[..n];
    var t := Play(cfg, inputs[..n]);
    PrefixWellFormed(cfg, inputs, n);
    PlayChronicles(cfg, inputs[..n], h);
    StepEffect(cfg, t.s, inputs[n], h);
    RecordLooksUp(t.past, Step(cfg, t.s, inputs[n]).1, t.s.memory.last + 1, h);
    hide Inv, Step, WellFormed, Quiet, Allowed, Record, Owners;
  }

  lemma {:induction false} AfterConfirmed(cfg: Config, inputs: seq<Input>, i: nat, n: nat, h: Hash)
    requires WellFormedRun(cfg, inputs) && i < n <= |inputs|
    requires EmittedAt(cfg, inputs, i, h) != [] && EmittedAt(cfg, inputs, i, h)[0].typ == Confirmed
    ensures var t, at := Play(cfg, inputs[..n]), BurialsBefore(cfg, inputs, i) + 1;
            (h in t.past && t.past[h] == Past(Confirmed, at)) || t.s.memory.last >= at + CAP
    decreases n
  {
    hide WellFormedRun, Play, EmittedAt;
    PastGrows(cfg, inputs, n - 1, h);
    if i < n - 1 {
      AfterConfirmed(cfg, inputs, i, n - 1, h);
      if EmittedAt(cfg, inputs, n - 1, h) != [] { StreamGrammar(cfg, inputs, n - 1, h); }
    }
  }

  /** Two `confirmed` transitions of one transaction have at least 8192 burials between them. */
  lemma ConfirmedTwice(cfg: Config, inputs: seq<Input>, i: nat, j: nat, h: Hash)
    requires WellFormedRun(cfg, inputs) && i < j < |inputs|
    requires EmittedAt(cfg, inputs, i, h) != [] && EmittedAt(cfg, inputs, i, h)[0].typ == Confirmed
    requires EmittedAt(cfg, inputs, j, h) != [] && EmittedAt(cfg, inputs, j, h)[0].typ == Confirmed
    ensures BurialsBefore(cfg, inputs, j) >= BurialsBefore(cfg, inputs, i) + 1 + 8192
  {
    AfterConfirmed(cfg, inputs, i, j, h);
    StreamGrammar(cfg, inputs, j, h);
  }

  // ---------------------------------------------------------------- first observation

  /** First observation, signer and nonce never change; the first inclusion not once it is set. */
  ghost predicate SameOrigin(a: Tx, b: Tx) {
    && a.hash == b.hash && a.firstSeen == b.firstSeen
    && a.sender == b.sender && a.nonce == b.nonce && a.hasNonce == b.hasNonce
    && (a.firstSeenBlock != 0 ==> b.firstSeenBlock == a.firstSeenBlock && b.minedAt == a.minedAt)
    && (a.authoritative ==> b.authoritative)
  }

  lemma JudgeKeepsTx(cfg: Config, s: State, hash: Hash, failed: bool, confirmations: nat, finalized: nat, h: Hash)
    requires hash in s.txs && h in Judge(cfg, s, hash, failed, confirmations, finalized).0.txs
    ensures h in s.txs && Judge(cfg, s, hash, failed, confirmations, finalized).0.txs[h] == s.txs[h]
  {
  }

  lemma MinedKeepsOrigin(cfg: Config, s: State, hash: Hash, block: Hash, blockNum: nat, transfers: seq<Match>,
                         failed: bool, confirmations: nat, finalized: nat, now: Time, h: Hash)
    requires h in s.txs
    requires h in OnMined(cfg, s, hash, block, blockNum, transfers, failed, confirmations, finalized, now).0.txs
    ensures SameOrigin(s.txs[h], OnMined(cfg, s, hash, block, blockNum, transfers, failed, confirmations, finalized, now).0.txs[h])
  {
    hide Judge, Unindex, Tombstones.Clear;
    var s1 := Exhume(s, hash);
    var s2 := IntoBlock(s1, hash, block, blockNum, transfers, now);
    assert SameOrigin(s.txs[h], s2.txs[h]);
    var s3 := Judge(cfg, s2, hash, failed, if confirmations == 0 then 1 else confirmations, finalized).0;
    if h in s3.txs {
      JudgeKeepsTx(cfg, s2, hash, failed, if confirmations == 0 then 1 else confirmations, finalized, h);
    }
  }

  /** For as long as a transaction stays tracked, through reorgs and re-mines. */
  lemma OriginImmutable(cfg: Config, s: State, i: Input, h: Hash)
    requires Inv(s) && WellFormed(s, i) && h in s.txs && h in Step(cfg, s, i).0.txs
    ensures SameOrigin(s.txs[h], Step(cfg, s, i).0.txs[h])
  {
    match i
    case SeenPending(matches, now) =>
    case FoundMined(hash, block, num, transfers, failed, conf, fin, now) =>
      MinedKeepsOrigin(cfg, s, hash, block, num, transfers, failed, conf, fin, now, h);
    case Verified(hash, head) =>
    case Rechecked(hash, still, now) =>
    case NonceUsed(sender, nonce, winner) => ReplaceAllAges(s, Occupants(s.byNonce, NonceKey(sender, nonce)), winner, h);
    case ForkedAt(ancestor, order, now) => OnReorgPrefix(s, ancestor, order, now, h);
    case Demoted(hash, now) =>
  }

  // ---------------------------------------------------------------- how long a transaction waited

  ghost predicate Finds(i: Input, h: Hash) { i.FoundMined? && i.hash == h }

  /** The input starts following `h`: its first sighting in the mempool, or a block that includes it unseen. */
  ghost predicate Opens(i: Input, h: Hash) {
    Finds(i, h) || (i.SeenPending? && i.matches != [] && i.matches[0].txHash == h)
  }

  /** The first inclusion of `h` from input `j` on. */
  ghost function FirstFound(inputs: seq<Input>, j: nat, h: Hash): (k: Option<nat>)
    ensures k.Some? ==> j <= k.value < |inputs| && Finds(inputs[k.value], h) && forall n :: j <= n < k.value ==> !Finds(inputs[n], h)
    ensures k.None? ==> forall n :: j <= n < |inputs| ==> !Finds(inputs[n], h)
    decreases |inputs|
  {
    if |inputs| <= j then None
    else
      var k := FirstFound(inputs[..|inputs| - 1], j, h);
      if k.None? && Finds(inputs[|inputs| - 1], h) then Some(|inputs| - 1) else k
  }

  /** Until its first inclusion a transaction has no block; from then on it keeps that block's number and time. */
  ghost predicate FoundSince(inputs: seq<Input>, j: nat, h: Hash, tx: Tx) {
    match FirstFound(inputs, j, h)
    case None => tx.state.InMempool? && tx.firstSeenBlock == 0 && tx.minedAt == NO_TIME
    case Some(k) => inputs[k].blockNum > 0 ==> tx.firstSeenBlock == inputs[k].blockNum && tx.minedAt == inputs[k].now
  }

  /** Input `j` started the stretch over which `h` has been followed ever since. */
  ghost predicate FollowedSince(cfg: Config, inputs: seq<Input>, j: nat, h: Hash) {
    && j < |inputs| && Opens(inputs[j], h) && h !in Play(cfg, inputs[..j]).s.txs
    && forall n :: j < n <= |inputs| ==> h in Play(cfg, inputs[..n]).s.txs
  }

  lemma MinedOnWait(cfg: Config, s: State, hash: Hash, block: Hash, blockNum: nat, transfers: seq<Match>,
                    failed: bool, confirmations: nat, finalized: nat, now: Time, h: Hash)
    requires IsPending(s, h) && !ConfirmedGrave(s, h)
    requires h in OnMined(cfg, s, hash, block, blockNum, transfers, failed, confirmations, finalized, now).0.txs
    ensures var tx := OnMined(cfg, s, hash, block, blockNum, transfers, failed, confirmations, finalized, now).0.txs[h];
            if h == hash then tx.firstSeenBlock == (if s.txs[h].firstSeenBlock == 0 then blockNum else s.txs[h].firstSeenBlock)
                              && tx.minedAt == (if s.txs[h].firstSeenBlock == 0 then now else s.txs[h].minedAt)
            else tx == s.txs[h]
  {
    hide Judge, Unindex, Tombstones.Clear;
    var s2 := IntoBlock(Exhume(s, hash), hash, block, blockNum, transfers, now);
    var conf := if confirmations == 0 then 1 else confirmations;
    if h in Judge(cfg, s2, hash, failed, conf, finalized).0.txs { JudgeKeepsTx(cfg, s2, hash, failed, conf, finalized, h); }
  }

  lemma WaitsOn(cfg: Config, s: State, i: Input, h: Hash)
    requires Inv(s) && WellFormed(s, i) && IsPending(s, h) && h in Step(cfg, s, i).0.txs
    ensures var tx := Step(cfg, s, i).0.txs[h];
            if Finds(i, h) then tx.firstSeenBlock == (if s.txs[h].firstSeenBlock == 0 then i.blockNum else s.txs[h].firstSeenBlock)
                                && tx.minedAt == (if s.txs[h].firstSeenBlock == 0 then i.now else s.txs[h].minedAt)
            else tx == s.txs[h].(pendingSince := tx.pendingSince)
  {
    hide Bury, Tombstones.Clear, Unindex, Index, NonceExact, Tombstones.Valid, ReplaceAll, OnReorg, OnMined;
    match i
    case SeenPending(matches, now) =>
    case FoundMined(hash, block, num, transfers, failed, conf, fin, now) =>
      MinedOnWait(cfg, s, hash, block, num, transfers, failed, conf, fin, now, h);
    case Verified(hash, head) =>
    case Rechecked(hash, still, now) =>
    case NonceUsed(sender, nonce, winner) => ReplaceAllAges(s, Occupants(s.byNonce, NonceKey(sender, nonce)), winner, h);
    case ForkedAt(ancestor, order, now) => OnReorgPrefix(s, ancestor, order, now, h);
    case Demoted(hash, now) =>
  }

  lemma Begins(cfg: Config, s: State, i: Input, h: Hash)
    requires Inv(s) && WellFormed(s, i) && h !in s.txs && h in Step(cfg, s, i).0.txs
    ensures Opens(i, h)
    ensures var tx := Step(cfg, s, i).0.txs[h];
            && tx.firstSeen == i.now && (tx.hasNonce <==> i.SeenPending?)
            && (if Finds(i, h) then tx.firstSeenBlock == i.blockNum && tx.minedAt == i.now
                else tx.state.InMempool? && tx.firstSeenBlock == 0 && tx.minedAt == NO_TIME)
  {
    hide Bury, Tombstones.Clear, Unindex, Index, NonceExact, Tombstones.Valid, ReplaceAll, OnReorg;
    match i
    case SeenPending(matches, now) =>
    case FoundMined(hash, block, num, transfers, failed, conf, fin, now) =>
    case Verified(hash, head) =>
    case Rechecked(hash, still, now) =>
    case NonceUsed(sender, nonce, winner) => ReplaceAllAges(s, Occupants(s.byNonce, NonceKey(sender, nonce)), winner, h);
    case ForkedAt(ancestor, order, now) => OnReorgPrefix(s, ancestor, order, now, h);
    case Demoted(hash, now) =>
  }

  lemma FollowedOn(cfg: Config, inputs: seq<Input>, j: nat, h: Hash)
    requires |inputs| > 0 && FollowedSince(cfg, inputs[..|inputs| - 1], j, h) && h in Play(cfg, inputs).s.txs
    ensures FollowedSince(cfg, inputs, j, h)
  {
    hide Play, Opens;
    var init := inputs[..|inputs| - 1];
    assert init[..j] == inputs[..j];
    forall n | j < n <= |inputs| ensures h in Play(cfg, inputs[..n]).s.txs {
      if n < |inputs| {
        assert init[..n] == inputs[..n];
      } else {
        assert inputs[..n] == inputs;
      }
    }
  }

  /**
   What a transaction's times mean: it has been followed without a break since the input `j` that first saw it
   at `firstSeen`, a mempool sighting exactly when its nonce is known, and `minedAt` is the time of its first
   inclusion since then. So the wait reported is its mempool time, through any reorgs and re-mines.
   Block 0 is Go's "not yet included".
   */
  lemma {:induction false} WaitIsMempoolTime(cfg: Config, inputs: seq<Input>, h: Hash) returns (j: nat)
    requires WellFormedRun(cfg, inputs) && h in Play(cfg, inputs).s.txs
    ensures FollowedSince(cfg, inputs, j, h)
    ensures var tx := Play(cfg, inputs).s.txs[h];
            && tx.firstSeen == inputs[j].now && (tx.hasNonce <==> inputs[j].SeenPending?)
            && FoundSince(inputs, j, h, tx)
    ensures var s, k := Play(cfg, inputs).s, FirstFound(inputs, j, h);
            WaitIn(s, h).Some? ==>
              && inputs[j].SeenPending? && k.Some?
              && (inputs[k.value].blockNum > 0 ==> WaitIn(s, h).value == inputs[k.value].now - inputs[j].now)
  {
    hide Inv, WellFormed, Step, Record, Chronicled;
    var n := |inputs| - 1;
    var init, i := inputs[..n], inputs[n];
    assert inputs[..|inputs|] == inputs;
    PrefixWellFormed(cfg, inputs, n);
    PlayChronicles(cfg, init, h);
    var s := Play(cfg, init).s;
    if h in s.txs {
      j := WaitIsMempoolTime(cfg, init, h);
      FollowedOn(cfg, inputs, j, h);
      OriginImmutable(cfg, s, i, h);
      if IsPending(s, h) { WaitsOn(cfg, s, i, h); }
    } else {
      j := n;
      Begins(cfg, s, i, h);
    }
  }
}
