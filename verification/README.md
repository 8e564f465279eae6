# Verified model of ethindex

ethindex follows transfers on EVM chains from the mempool to finality. This project models its deterministic
core in Dafny and proves what the core keeps, over every input and every run.

| file | what it models |
|---|---|
| `types.dfy` | hashes, addresses, transfer legs, events |
| `tombstones.dfy` | the bounded memory of ended transactions: map, FIFO, in-place compaction |
| `lifecycle.dfy` | the lifecycle tracker as functions on values, one per input |
| `laws.dfy` | what each input and each block means to its caller, field by field and event by event, without the tracker's own terms |
| `invariant.dfy`, `effects.dfy`, `reports.dfy`, `grammar.dfy` | what every input keeps, what it does to one transaction, what its events say, what whole event streams look like |
| `tracker.dfy` | the tracker as the object the source writes, proved to refine `lifecycle.dfy` |
| `chain.dfy` | the ring of recent headers and the chunked ancestor walk |
| `ancestry.dfy` | the block tree and its canonical chain |
| `blocks.dfy`, `rescan.dfy` | processing one block, and processing it again |
| `safety.dfy` | when a `confirmed` event may be emitted |
| `journal.dfy` | the dispatch loop's journal of tracker inputs and processed blocks, and what every journal keeps |
| `film.dfy` | what a journal says about the ring, the scan and the depths blocks are counted at |
| `node.dfy` | the node as an oracle, and which of its answers an act of the loop rests on |
| `passes.dfy` | one lifecycle pass, act by act, and the answers behind confirmations |
| `books.dfy` | which block numbers a scan has processed |
| `heads.dfy` | the treatment of one announced head as a relation between states and answers, and the reports of a run |
| `indexer.dfy` | the dispatch goroutine as the object the source writes: heads, catch-up, reorgs, the lifecycle pass |
| `prefetch.dfy` | the feeder, worker and consumer pipeline as a step system |
| `matcher.dfy`, `scan.dfy`, `chunks.dfy` | matching transfers, the three log sources, adaptive range queries |
| `storage.dfy`, `mirror.dfy`, `paging.dfy` | the transactions table, the restart mirror, keyset paging |
| `life.dfy` | the dispatch loop's journal as a life of the restart mirror |
| `hub.dfy` | drop-slow broadcast |
| `units.dfy` | exact decimal printing |
| `limits.dfy`, `gapexample.dfy` | promises the code does not keep, with the exact condition under which it does, and inputs where it does not |

Code that changes things step by step is a class with methods and loops; each method is proved equal to a
function of the state before it, and the theorems are about those functions and about whole runs.

The node is an oracle: a `Nodes.World` gives the answer to request number `q` as a function of `q`, so answers
may change from one request to the next and any of them may fail. What each request asked for is part of the
loop's state, and only an answer that was asked for counts. A step of a `steady` world gets answers that
agree with one canonical chain; block hashes commit to number, parent and contents, so one function from
hashes to headers stands for every block there ever was (`Ancestry.Tree`).

The dispatch loop keeps a ghost journal. Replaying it gives exactly the tracked state and the event stream
(`Indexing.Indexer.Told`), the ring and its tip, the depth each block and receipt was counted at, the numbers
scanned and the number the scan began at (`Film.FilmOf`). Every act in it is grounded in an answer of the node
(`Nodes.Grounded`): there is no way to confirm, demote, mine or drop a transaction without the answer the source
asks for.

## Main results

- **Canonical inclusion** (`Indexing.Indexer.Dispatch`): over any sequence of heads and mempool notices,
  after clean steps every tracked inclusion is in the ancestry of the last processed head, reorgs onto a
  lower head included. The run is reported step by step. The reports link the first state to the last, and each
  is explained by the answers of its step (`Heads.HeadStep`): how the head was classified, what the ancestor
  walk found, which blocks were processed, where the tip and the resume point are. `Heads.Clean` and
  `Heads.Guarded` are conditions on these reports.
- **No block is skipped** (`Indexing.Indexer.Dispatch`), failed catch-ups and reconnects included: every number
  from the first block processed, or from the position the process resumed at, up to the last processed one is
  in the journal on the current chain (`Film.Complete`). A successful catch-up processes each number exactly
  once, with the live traffic, notice by notice and block by block, and a lifecycle pass between any two blocks
  of the backlog (`Heads.GapClosed`). One that gives up was refused a block it had to ask for, or got an unclear
  answer in a pass (`Heads.Stopped`). A reorg's treatment is the fork, the blocks above it in order and the
  landing, and nothing else (`Heads.Replayed`).
- **Confirmation safety**: at every moment each confirmed event ever emitted reports a depth of which
  `confirmations + blockNumber <= tip + 1`, with the tip the earlier acts left, and exactly that for a block and a
  receipt; a verification is counted from a head no higher. The depth is at least the configured one, or in tag
  mode the block is at or below a known finalized number (`Indexing.Indexer.StreamSafe`, `Film.NotOverstated`). An
  inclusion that delivers is confirmed if and only if that threshold is met, and stays mined if and only if it is
  not (`Laws.InclusionLaw`). Every confirmed
  event a head leads to has an answer behind it, given while that head was handled: the served block, or a
  receipt naming the event's block (`Heads.ConfirmedInHead`).
- **One lifecycle pass**, exactly (`Indexing.Indexer.LifecyclePass` with `Passes.PassOf`): who is checked, in
  which order, and what each answer leads to, unclear ones included.
- **The ancestor walk**: the chunked walk over the ring gives the answer of a one-at-a-time walk over everything
  ever recorded, as long as records stay inside the ring's window and the tip is the highest of them
  (`Chain.ChainState.FindAncestor`); with the tip lowered, what it can miss is a ring length old
  (`Chain.LoweredWalk`).
- **What every input means** (`Laws`): for each input, which transactions it moves, with every field afterwards, how
  an ended one is remembered, and each event with its position, times and depth. `Laws.MatchedLaw`,
  `Laws.UnmatchedLaw` and `Laws.ConsumedLaw` say the same of one transaction across a whole block.
- **Lifecycle grammar** (`Grammar.StreamGrammar`, `Grammar.ConfirmedTwice`), which are theorems about the
  dispatch loop's stream (`Indexing.Indexer.StreamIsARun`), **nonce index exactness**
  (`Invariant.StepKeepsInv`, `Effects.OnNonceUsedExact`), **bounded memory** (`Tombstones.BuryRefines`).
- **Block resolution** and silent re-processing (`Blocks.BlockResolves`, `Rescan.RescanIsSilent`).
- **Restart mirror over whole lives** (`Mirror.EveryLife`, `Mirror.RestartRecovers`): restarts are steps of
  the life like any other, and the dispatch loop with its events persisted continues such a life
  (`Indexing.Indexer.StreamIsALife`).
- **Prefetch pipeline** (`Prefetch.EveryRun`, `Prefetch.RunsFinish`, `Prefetch.DeadlockFreeExactly`).
- **Block scans** (`Scanning.ReportMeans`): an entry is failed if and only if the body holds a matched transaction of
  that hash whose receipt reverted; every token leg of one that did not fail comes from a log that counts, and every
  log that counts has its leg. A log is read back as the transfer it was emitted for (`Matching.LogReads`).
- **Log sources** agree exactly when the watched topics are left-padded (`Scanning.SourcesAgreeExactly`);
  adaptive chunks never change a block's logs (`LogChunks.SourceBacklog`).
- **Paging** drains exactly for every page size if and only if no rows tie (`Paging.PagingExact`).
- **Hub streams** (`Broadcast.StreamsSound`, `Broadcast.StreamsContinue`) and **decimal printing**
  (`Units.FormatReads`).

## Where code and comments differ

The model follows the code.

- `internal/indexer/indexer.go:639-643` asks for a slot buffer larger than a span. One less than a span is
  enough, and necessary (`Prefetch.DeadlockFreeExactly`).
- `internal/storage/sqlite.go:216-219` calls restoring the signer onto each leg a faithful round trip. A leg
  found in a log has no signer of its own, and gets its transaction's on restart (`Mirror.Recovered`).
- `internal/storage/sqlite.go:300-301` has the keyset page resume exactly after the last row; in the feed of
  all indexers two rows can tie, and a page that ends between them skips one (`Paging.GlobalFeedSkips`).
- `internal/storage/sqlite.go:16-17` allows one leg without a log index. A pending call can carry a native and
  a calldata leg (`Limits.TwoLegs`), and then is not stored (`Limits.PendingClash`).

## Preconditions and exact limits

- `Chain.RingIsHistory` needs every record within the ring's depth of the highest one. A newest-first
  catch-up longer than that evicts its own head (`Chain.OverlongScanEvictsTheHead`). Whatever the records, the
  ring never holds a header that is not the last one recorded for its number (`Chain.RingNeverLies`).
- A reorg entered after an interrupted catch-up skips nothing exactly when its ancestor is not past the
  unscanned frontier (`Books.ReorgSkips`).
- A gap head's linkage is not checked and nothing is rewound. What the catch-up does not find again stays
  where it was; with the highest tracked inclusion among that, all inclusions are on the node's chain
  afterwards exactly when the chain contains that inclusion's block (`Limits.GapNeedsLink`);
  `GapExample.GapStrands` is a run where it does not.
- A node ahead of the head it announced serves receipts past the tip, and the transaction is tracked there.
  If the next head extends the tip, all inclusions are on its chain exactly when that block accounts for every
  inclusion ahead of the tip (`Limits.AheadReceipt`); `Limits.AheadReceiptStrands` is a run where it does not.
  `Indexing.Indexer.Dispatch` therefore counts a node as steady only if its receipts name blocks no newer than
  the head being handled.
- Depths are counted against the ring's tip, which during a rescan onto a lower head is still the old one: the
  tip falls to the new head only at the end (`Film.TipOf`).
- A rescan repeats `failed` exactly for reverted transactions with legs (`Limits.RescanRepeatsFailure`).

## Model

| member | source | states |
|---|---|---|
| Tombstones.BuryRefines | internal/indexer/tracker.go:118-140 | a burial is an append to a queue of live tombstones that drops only its oldest on overflow; the map holds at most the cap and the FIFO at most twice that |
| Tombstones.ClearRefines | internal/indexer/tracker.go:261-266 | clearing a tombstone removes exactly it from the queue and keeps the memory valid |
| Tombstones.BuryRemembers | internal/indexer/tracker.go:118-122 | what was just buried is remembered under its type with the newest sequence number, and nothing else appears |
| Tombstones.BuryForgetsOnlyTheOldest | internal/indexer/tracker.go:123-129 | a burial changes no other tombstone, and forgets one only if at least the cap's number of burials followed it |
| Tombstones.LiveRefsKeepsQueue | internal/indexer/tracker.go:130-139 | compaction keeps exactly the live entries, in order |
| Tombstones.CompactInPlace | internal/indexer/tracker.go:130-139 | the in-place loop leaves the live entries as the array's prefix |
| Tracking.Tracker.Bury | internal/indexer/tracker.go:118-140 | the updates of map, FIFO and sequence number are the burial on values |
| Tracking.Tracker.EvictOldest | internal/indexer/tracker.go:123-129 | the eviction loop is the eviction on values |
| Tracking.Tracker.CompactFIFO | internal/indexer/tracker.go:130-139 | compaction happens beyond twice the cap and then keeps the live entries |
| Tracking.CutFirst | internal/indexer/tracker.go:153-170 | cuts the first occurrence of a hash out of a slot list |
| Tracking.Tracker.IndexNonce | internal/indexer/tracker.go:143-150 | appends a transaction with a nonce to its slot |
| Tracking.Tracker.UnindexNonce | internal/indexer/tracker.go:153-170 | removes it from its slot and deletes an emptied slot |
| Tracking.Tracker.OnPending | internal/indexer/tracker.go:207-235 | state and events of a mempool sighting, duplicates and tombstones included |
| Tracking.Tracker.OnMined | internal/indexer/tracker.go:256-315 | state and events of an inclusion: re-mining, failure, silent forgetting, instant confirmation |
| Tracking.Tracker.EnterBlock | internal/indexer/tracker.go:268-299 | the fields of a transaction that enters a block, and its slot |
| Tracking.Tracker.Verdict | internal/indexer/tracker.go:300-315 | fail, forget, confirm at once or keep as mined, by the threshold that `Laws.InclusionLaw` spells out |
| Tracking.Tracker.Confirm | internal/indexer/tracker.go:360-369 | finalizes a mined transaction at a head not below it |
| Tracking.Tracker.OnHead | internal/indexer/tracker.go:337-354 | the candidates are exactly the mined transactions whose block is at least the configured depth below the head, or in tag mode at or below a known finalized number; the stale ones exactly those pending for longer than the timeout |
| Tracking.Tracker.OnDropStale | internal/indexer/tracker.go:407-420 | resets the timer of a pending transaction the node still knows, and drops one it does not, as `Laws.RecheckLaw` spells out |
| Tracking.Tracker.OnNonceUsed | internal/indexer/tracker.go:427-449 | resolves the occupants of a consumed slot while the slot's own list shrinks |
| Tracking.Tracker.OnReorg | internal/indexer/tracker.go:454-468 | demotes what was mined above the ancestor, in some order of the map |
| Tracking.Tracker.Demote | internal/indexer/tracker.go:472-484 | one mined transaction back to pending and into its slot |
| Tracking.Tracker.NativeLegs | internal/indexer/tracker.go:381-392 | exactly the legs without a token, in order |
| Tracking.Tracker.ExportTx | internal/indexer/tracker.go:490-535 | the stored form of a tracked transaction, leg by leg |
| Tracking.Tracker.Import | internal/indexer/tracker.go:539-603 | restores every active stored transaction, indexes the pending ones, reports skipped ones |
| Laws.SightingLaw | internal/indexer/tracker.go:207-235 | a first sighting is followed as pending under the signer and nonce of its first leg, listed last in that slot and reported leg by leg; one tracked already, or ended otherwise than by being dropped, is ignored |
| Laws.InclusionLaw | internal/indexer/tracker.go:241-315 | an inclusion that failed is over and reported failed; one that delivers is confirmed at once if and only if the depth or the finalized number suffices, and otherwise tracked in the block and reported mined; one that delivers nothing is over in silence; first sighting and first inclusion are the earliest |
| Laws.InclusionIdle | internal/indexer/tracker.go:256-275 | a confirmed transaction's inclusion, and one in the block it is already in, change and report nothing |
| Laws.VerificationLaw | internal/indexer/tracker.go:360-369 | a mined transaction at or below the head is over, confirmed at its depth below that head and remembered so; nothing else is touched |
| Laws.RecheckLaw | internal/indexer/tracker.go:407-420 | still known: no event, and nothing changes but the timer; gone: followed no longer, remembered as dropped and reported dropped leg by leg |
| Laws.ReplacementLaw | internal/indexer/tracker.go:427-449 | a consumed nonce ends every other pending transaction of that signer and nonce, reported replaced by the winner, and touches no other |
| Laws.ReorgLaw | internal/indexer/tracker.go:454-468 | what is mined above the ancestor is pending since now, out of its block, with all other fields kept, and reported with the block it was in; nothing else changes |
| Laws.DemotionLaw | internal/indexer/tracker.go:472-484 | the same of one mined transaction |
| Laws.MatchedLaw | internal/indexer/blocks.go:436-442 | a matched transaction fares in the whole block exactly as an inclusion with the scan's legs and verdict at the block's depth and finality |
| Laws.UnmatchedLaw | internal/indexer/blocks.go:444-463 | a pending transaction of the block without a match fares by its receipt: failed, confirmed or mined with the legs proved before, or forgotten when they were only a guess |
| Laws.ConsumedLaw | internal/indexer/blocks.go:465-470 | the block's nonces end a pending transaction only as replaced by another transaction of the block with the same signer and nonce, and report nothing else |
| Invariant.StepKeepsInv | internal/indexer/tracker.go:50-83 | every input keeps the invariant: filed entries, legs, graves, and slot lists that are non-empty, duplicate-free and hold exactly the pending occupants |
| Invariant.IndexExact | internal/indexer/tracker.go:143-150 | indexing keeps the nonce index exact |
| Invariant.UnindexExact | internal/indexer/tracker.go:153-170 | unindexing keeps the nonce index exact |
| Effects.OnNonceUsedExact | internal/indexer/tracker.go:427-449 | a consumed nonce replaces exactly the other pending occupants of its slot, one event per leg naming the winner, and leaves everything else |
| Effects.OnReorgExact | internal/indexer/tracker.go:454-468 | a reorg demotes exactly what was mined above the ancestor, whatever the map order |
| Effects.StepEffect | internal/indexer/tracker.go:207-484 | every input treats every transaction as the lifecycle automaton allows; without an event only a timer moved or a non-delivering guess was forgotten |
| Reports.StepTells | internal/indexer/tracker.go:173-205 | each transition reports every leg once, in order, with the block the transaction is in, or was in before it left |
| Grammar.StreamGrammar | internal/indexer/tracker.go:207-484 | over every run, each event of a hash may follow the one before it: reorged only from mined, dropped and replaced only from pending, nothing pending after failed or replaced while the tombstone lives, nothing after confirmed |
| Grammar.AfterConfirmed | internal/indexer/tracker.go:257-260 | after a confirmation the hash emits nothing until the cap's number of burials has passed |
| Grammar.ConfirmedTwice | internal/indexer/tracker.go:118-140 | two confirmations of one hash are separated by at least 8192 later burials |
| Grammar.OriginImmutable | internal/indexer/tracker.go:23-48 | first sighting, signer and nonce never change while a transaction is tracked |
| Grammar.WaitIsMempoolTime | internal/indexer/tracker.go:317-331 | the wait that `Tracking.Tracker.MempoolWait` reports for a tracked transaction is the time from the mempool sighting since which it has been followed to its first inclusion, through reorgs and re-mines, and is known only for one first seen there |
| Chain.ChainState.Record | internal/indexer/chain.go:41-47 | files a header in its slot and moves the tip forward only |
| Chain.ChainState.At | internal/indexer/chain.go:50-54 | finds a header exactly when the map of buffered headers has it |
| Chain.ChainState.ResetTip | internal/indexer/chain.go:68-73 | moves the tip to a buffered header, and not otherwise |
| Chain.ChainState.Snapshot | internal/indexer/chain.go:76-88 | the buffered headers of the window, ascending |
| Chain.SnapshotRestores | internal/indexer/chain.go:76-88 | recording a snapshot into an empty ring restores the window |
| Chain.ChainState.Classify | internal/indexer/chain.go:91-109 | how a head relates to the tip, in all cases |
| Chain.ChainState.FindAncestor | internal/indexer/chain.go:129-170 | the chunked walk gives the answer of a one-at-a-time walk, error order included, over the ring and, inside the window, over the history of all records |
| Chain.WalkOverHistory | internal/indexer/chain.go:111-128 | above the window's edge, walking the ring is walking the unbounded history |
| Chain.LoweredWalk | internal/indexer/indexer.go:927-934 | with the tip lowered, an agreement found is one with the history, and a greater one passed over is a ring length behind the highest record |
| Chain.RingNeverLies | internal/indexer/chain.go:41-54 | whatever was recorded, a buffered header is the last one recorded for its number |
| Chain.WalkFindsGreatest | internal/indexer/chain.go:115-128 | that answer is the greatest agreeing buffered number above the floor, and deep exactly when none agrees |
| Chain.RingIsHistory | internal/indexer/chain.go:27-47 | inside the window the ring is the unbounded map of last recorded headers |
| Chain.UnconfirmedInRing | internal/indexer/chain.go:33-39 | a block short of its confirmations is above the ring's floor with room to spare, so the walk can reach its fork |
| Chain.OverlongScanEvictsTheHead | internal/indexer/chain.go:42 | a record one depth below the head evicts the head |
| Blocks.ProcessKeeps | internal/indexer/blocks.go:421-476 | a processed block keeps the invariant and moves transactions only into itself |
| Blocks.BlockResolves | internal/indexer/blocks.go:444-470 | afterwards no tracked pending transaction is in the block or shares a nonce slot with one of its transactions |
| Rescan.RescanIsSilent | internal/indexer/blocks.go:421-476 | processing the block again emits nothing and moves no transaction and no slot, if nothing in it reverted |
| Safety.ProcessSafe | internal/indexer/blocks.go:421-487 | a block's confirmed events are about the block, report the depth the block was given, and that depth is at least the configured one, or in tag mode the block is at or below a known finalized number |
| Safety.OnMinedSafe | internal/indexer/tracker.go:241-246 | every event of an inclusion is about its block and reports the depth it was given, and an instant confirmation has at least the configured depth, or in tag mode a known finalized number at or above its block |
| Indexing.Indexer.ProcessBlock | internal/indexer/blocks.go:421-476 | the scanned block through the tracker and into the ring, at the depth `tip + 1 - number` below the tip it was started with, or 1 if it is not below it, and with finality as of its start |
| Indexing.Indexer.FeedMined | internal/indexer/blocks.go:436-442 | the matched transactions, one inclusion each |
| Indexing.Indexer.FeedUnmatched | internal/indexer/blocks.go:444-463 | the tracked pending transactions of the block the scan did not cover |
| Indexing.Indexer.FeedNonces | internal/indexer/blocks.go:465-470 | every transaction of the block consumes its nonce slot |
| Indexing.Indexer.ApplyCheck | internal/indexer/indexer.go:1016-1038 | one candidate's receipt: none demotes it, its tracked block confirms it, another block demotes it and mines it there, an unclear answer does nothing and stops the pass; no other transaction changes |
| Laws.CheckLaw | internal/indexer/indexer.go:1016-1038 | what a candidate's receipt comes to: its own block confirms it at its depth below the head; none reverts it to the mempool; another block reports it reverted and includes it there, at that block's depth below the tip, as failed, confirmed or mined; an unclear answer changes nothing |
| Laws.PromotionLaw | internal/indexer/indexer.go:1052-1074 | a stale transaction with a receipt is included where the receipt says with its native legs and the receipt's, and fails, confirms, stays mined or is forgotten by the receipt, the depth below the tip and what proves its legs; without one nothing happens yet |
| Laws.FateLaw | internal/indexer/indexer.go:1076-1094 | one the node still knows waits on with a fresh timer; one that is gone is reported dropped and remembered so; an unclear answer changes nothing |
| Indexing.Indexer.VerifyInclusions | internal/indexer/indexer.go:1005-1038 | exactly the candidates at or above the scan floor are asked about, in order, up to the first unclear answer |
| Indexing.Indexer.PromoteFound | internal/indexer/indexer.go:1052-1074 | every stale transaction with a receipt is mined where it says, with its native legs and the receipt's, at that block's depth below the tip; the ones without are handed on |
| Indexing.Indexer.ResolveFates | internal/indexer/indexer.go:1076-1094 | the ones without a receipt wait on while the node knows them and are dropped once it does not |
| Nodes.UnminedMeans | internal/indexer/indexer.go:1066-1075 | handed on are exactly those whose receipt request was answered with none |
| Indexing.Indexer.RecheckPending | internal/indexer/indexer.go:1052-1094 | all receipts first, then the presence of the rest; an unclear answer ends it there |
| Indexing.Indexer.WithRestored | internal/indexer/indexer.go:986-1003 | the stale transactions, then the restored ones not among them |
| Indexing.Indexer.LifecyclePass | internal/indexer/indexer.go:985-1047 | the whole pass against the answers it got, each act grounded in one of them |
| Indexing.Indexer.UpdateLifecycles | internal/indexer/indexer.go:974-1047 | finality refreshed, then the pass; restored transactions are forgotten only once it went through; on a steady node no inclusion leaves the chain |
| Indexing.Indexer.Restored | internal/indexer/indexer.go:174-214 | stored transactions are tracked again and exactly the pending ones among them are to be rechecked; a resuming process takes up the saved position and headers |
| Passes.ConfirmedIsWitnessed | internal/indexer/indexer.go:974-1047 | every confirmed event of a stretch of the journal has an answer behind it to a request that asked for it, a served block or a receipt naming its block, a verified one at or above the scan floor, and reports a depth no greater than the blocks from its own up to the tip |
| Journal.RunSafe | internal/indexer/blocks.go:421-487 | every event of every journal was emitted by one act, and a confirmed one reports the depth that act gave, which is at least the configured one, or in tag mode has a known finalized number at or above its block |
| Film.StreamDepth | internal/indexer/blocks.go:478-487 | with blocks and receipts counted from the tip the earlier acts left and no inclusion verified at a head above it, each confirmed event of the journal has `confirmations + blockNumber <= tip + 1`, with equality for a block and a receipt, and is at least as deep as configured, or finalized in tag mode |
| Journal.JournalIsARun | internal/indexer/indexer.go:259-340 | from a fresh start a journal is a well-formed run of tracker inputs that emits exactly its stream |
| Indexing.Indexer.StreamSafe | internal/indexer/tracker.go:237-246 | at every moment each event emitted so far is safe, and every confirmed one is bounded as in `Film.StreamDepth` |
| Indexing.Indexer.StreamIsARun | internal/indexer/indexer.go:259-340 | the loop's stream and tracked state are those of a run the grammar theorems speak about |
| Indexing.Indexer.StreamIsALife | internal/indexer/blocks.go:610-641 | begun where a life of the mirror stands and persisted input by input, the loop continues that life: the table mirrors its tracked state |
| Lives.JournalIsALife | internal/indexer/blocks.go:610-641 | a lawful journal with distinct legs whose inputs' events are persisted is a life, restarts before it included |
| Film.TipMeans | internal/indexer/chain.go:41-73 | a processed block at or above the tip becomes the tip, a landing moves it to the buffered header of a number, and nothing else moves it |
| Film.ScannedMeans | internal/indexer/indexer.go:919-934 | a number counts as scanned on the current chain exactly when some processing of it was followed by no reorg below it |
| Film.CompleteMeans | internal/indexer/indexer.go:372-377 | a scan owes exactly the numbers past the position it resumed at, or from the first block it processed, and each must stand |
| Nodes.ChecksMean | internal/indexer/indexer.go:1005-1012 | the receipts asked for are exactly those of mined candidates in blocks the scan has reached, each against the block it is tracked in |
| Heads.RefreshedMeans | internal/indexer/indexer.go:123-150 | the finalized number is the node's answer, or the last one known when there is none, and 0 outside tag mode |
| Heads.DeliveryMeans | internal/indexer/indexer.go:782-801 | a notice is taken at once, a newer head leads to exactly the blocks up to it in order, and an older one to nothing |
| Indexing.Indexer.ProcessUpward | internal/indexer/indexer.go:807-854 | a live gap, and a reorg's replay, process the numbers ascending without a hole |
| Indexing.Indexer.DrainLive | internal/indexer/indexer.go:782-801 | live traffic between backfill blocks: every waiting delivery is taken in order, a notice into the tracker and a newer head by processing exactly the numbers up to it, so that no delivered head is above the newest one reached |
| Indexing.Indexer.CatchUpScan | internal/indexer/indexer.go:477-611 | on success each number from the start to the highest reached was processed exactly once, every backlog block preceded by the drained traffic and followed by its pass; only then does the resume point move; failure names the refused block or the unclear answer of a pass |
| Indexing.Indexer.Rewind | internal/indexer/indexer.go:919-925 | exactly what was mined above the ancestor is pending again and reported leg by leg, everything else stays, and the resume point is the ancestor |
| Indexing.Indexer.HandleReorg | internal/indexer/indexer.go:905-934 | the walk decides: its failure changes nothing, its fork is rewound to, exactly the numbers above it are replayed up to the head and the tip lands there; afterwards everything tracked is canonical again, also when the head is lower |
| Indexing.Indexer.Treat | internal/indexer/indexer.go:343-355 | a head's treatment: its relation to the tip, and a gap where the scan is behind an extended tip |
| Heads.TreatmentMeans | internal/indexer/indexer.go:343-377 | in all cases: a head extends when it follows the tip and the scan is not behind it; gaps are heads further up or an extended tip the scan is behind; stale is a header already buffered; anything else is a reorg |
| Heads.ForkMeans | internal/indexer/indexer.go:905-925 | the fork is the greatest number down from the lower of tip and head to above the floor where the node has the buffered header, or the floor, and there is none when an answer failed |
| Indexing.Indexer.ExtendTip | internal/indexer/indexer.go:360-370 | the announced block, fetched by hash, becomes the tip and the resume point; a refused fetch changes nothing |
| Indexing.Indexer.CatchUp | internal/indexer/indexer.go:372-377 | every number past the resume point once, up to the announced head or a newer one delivered meanwhile; a catch-up that stops was refused a block it had to ask for or got an unclear answer in a pass, and leaves the resume point |
| Indexing.Indexer.BackfillOne | internal/indexer/indexer.go:530-593 | one backlog block: fetched, then everything the subscriptions delivered, then processed, then a pass that spares what is not rescanned |
| Indexing.Indexer.Land | internal/indexer/indexer.go:929-932 | the tip falls to the new head if it is buffered, as the reorg's last act |
| Indexing.Indexer.OnHead | internal/indexer/indexer.go:343-385 | one announced head, explained: classified, treated and followed by the pass at the head reached; it keeps canonical inclusion and skips no block |
| Heads.ConfirmedInHead | internal/indexer/indexer.go:343-385 | every confirmed event a head leads to rests on an answer asked for and given while it was handled, and reports a depth no greater than the blocks from its own up to the tip |
| Indexing.Indexer.Dispatch | internal/indexer/indexer.go:319-340 | any run of heads and notices, reported step by step from the first state to the last: after clean steps everything tracked is in the last head's ancestry, and without a reorg after an interrupted catch-up every number the scan owes is in the journal on the current chain |
| Indexing.Indexer.VerifyTag | internal/indexer/indexer.go:279-292 | in tag mode a process starts from the node's finalized number, and a node that cannot name it is refused |
| Indexing.Indexer.RunSession | internal/indexer/indexer.go:259-340 | a whole run: the tag verified, then the dispatch, with both its conclusions |
| Books.ReorgSkips | internal/indexer/indexer.go:925 | setting the resume point to the ancestor skips nothing exactly when the ancestor is not past the unscanned frontier |
| Prefetch.StepKeepsInv | internal/indexer/indexer.go:628-708 | every step of feeder, workers and consumer keeps order, disjoint spans and single filling |
| Prefetch.NeverStuck | internal/indexer/indexer.go:637-644 | no reachable unfinished state is stuck |
| Prefetch.EveryRun | internal/indexer/indexer.go:628-708 | in every interleaving the consumer has each block so far once in scan order, no slot is filled twice, the lookahead is bounded, and at most seven steps are spent per block |
| Prefetch.RunsFinish | internal/indexer/indexer.go:628-708 | a run that cannot go on has delivered everything, filled every slot once and left nobody busy |
| Prefetch.SizedMeans | internal/indexer/indexer.go:633-644 | at least one worker and one block per span, and a slot buffer of two spans per worker |
| Prefetch.SizedSuffices | internal/indexer/indexer.go:633-644 | the configured buffer sizes meet what progress needs |
| Prefetch.DeadlockFreeExactly | internal/indexer/indexer.go:639-644 | the pipeline never deadlocks if and only if the slot buffer is at least one less than a span |
| Prefetch.ScanOrder | internal/indexer/indexer.go:688-703 | each number of the range has one position, ascending or descending |
| Prefetch.FetchSpan | internal/indexer/indexer.go:722-771 | every slot of a span gets exactly one result, for its own number, whichever requests fail |
| Matching.DecodesTransfer | internal/indexer/matcher.go:215-240 | decoding an encoded transfer call returns it, whatever follows |
| Matching.DecodesTransferFrom | internal/indexer/matcher.go:215-240 | the same for transferFrom, whose owner is the sender |
| Matching.LegsGenuine | internal/indexer/matcher.go:134-275 | every match moves something, touches a watched address and is labelled with the watched side |
| Matching.TransferCallMatched | internal/indexer/matcher.go:164-213 | a transfer call to a watched token has a token leg exactly when a side is watched, with its amount, after at most a native leg |
| Matching.LogReads | internal/indexer/matcher.go:243-275 | the log a token emits for a transfer is read back as that transfer, from topic 1 to topic 2, with the token's symbol and decimals and its own position; not at all with neither side watched, a zero amount or an unlisted token |
| Matching.NativeReads | internal/indexer/matcher.go:134-162 | a native leg carries the transaction's own value from signer to recipient, and there is one, first, exactly when it moves something and a side is watched |
| Matching.CallReads | internal/indexer/matcher.go:164-213 | a token leg of a call is the decoded call's, under the transaction's hash, signer and nonce, and there is one whenever the call moves something and a side is watched |
| Scanning.FetchTopicFilterLogs | internal/indexer/blocks.go:227-258 | one answer per filter, or a failure exactly when one of them failed |
| Scanning.FetchLogsRange | internal/indexer/blocks.go:264-289 | grouped by block, each block of the range gets exactly what its own queries would have returned |
| Scanning.SourcesAgreeExactly | internal/indexer/blocks.go:212-223 | filters and receipts find the same legs for every transaction if and only if each matching log has a left-padded topic for a watched side |
| Scanning.LeftPaddedVisible | internal/indexer/matcher.go:243-275 | a matching log with left-padded topics is found by the filters |
| Scanning.DirtyTopicLost | internal/indexer/matcher.go:250-251 | a topic with dirty high bits is matched from receipts and lost by the filters |
| Scanning.ScanBlock | internal/indexer/blocks.go:295-417 | one entry per transaction with watched activity, holding exactly its native legs and the legs its logs prove, in the order of discovery, failed exactly when its receipt reverted; none exactly when a needed lookup failed |
| Scanning.ReportMeans | internal/indexer/blocks.go:295-417 | over body, receipts and logs alone: an entry is failed if and only if the body has a matched transaction of its hash whose receipt reverted; the token legs of one that did not fail are those of logs that count, and no such log is missed |
| Scanning.FoundNext | internal/indexer/blocks.go:299-410 | a transaction is found once: in the order of the body where it matches and has a receipt, then where a log first proves a leg of it |
| Scanning.CandidatesFrom | internal/indexer/blocks.go:366-389 | a scan's logs are the prefetched ones, else the receipts' for more than a thousand watched addresses, else its own queries'; none without watched tokens |
| Scanning.ReportOrders | internal/indexer/blocks.go:319-410 | an entry's legs in order: all the transaction asked for if its receipt reverted, its native one if not, then what the logs prove in their order |
| Scanning.FileNative | internal/indexer/blocks.go:319-357 | the native pass over the block body, in its order: a reverted receipt marks its entry failed and keeps every leg, a vanished one is skipped (`Scanning.ReportMeans` says what that comes to) |
| Scanning.FileLogs | internal/indexer/blocks.go:399-409 | logs of other blocks and removed logs are dropped, the rest extend their transaction's legs |
| Scanning.ScansAgree | internal/indexer/blocks.go:366-410 | scans from filters and from receipts report the same transactions, verdicts and legs |
| Scanning.ReportsWellScanned | internal/indexer/blocks.go:295-417 | a scan's report is what block processing relies on |
| LogChunks.NextLogs | internal/indexer/indexer.go:545-567 | a range query only when the last answer does not reach the block, never below the start; a rejection halves the size |
| LogChunks.SourceBacklog | internal/indexer/indexer.go:495-567 | whatever queries fail, a block gets nothing or exactly its own query's logs; rejections are logarithmic and answers few |
| LogChunks.FewFailures | internal/indexer/indexer.go:35-40 | a provider that rejects everything sees at most six range queries, four for a huge watched set |
| LogChunks.FirstChunk | internal/indexer/indexer.go:31-40 | range queries start at 500 blocks, at 100 for more than a thousand watched addresses |
| Storage.Table.SaveTransaction | internal/storage/sqlite.go:112-150 | replaces a transaction's rows with one per leg; fails without a trace exactly when two legs share an index |
| Storage.Table.UpdateTransactionStatus | internal/storage/sqlite.go:154-168 | a status on every row of the transaction and on no other |
| Storage.Table.LoadActiveTransactions | internal/storage/sqlite.go:170-237 | the active rows grouped: each transaction once, each row in it exactly once, in index order |
| Storage.RowRoundTrip | internal/storage/sqlite.go:112-237 | a saved active transaction is loaded again, legs in log-index order |
| Mirror.PersistEvents | internal/indexer/blocks.go:610-641 | what a batch of events leaves in each transaction's rows |
| Mirror.BatchMeans | internal/indexer/blocks.go:610-641 | row by row: no event keeps the rows; a tracked transaction has a row per leg under its log index with its snapshot; one that is over keeps its rows under the last event's type and winner, or gets a row per event |
| Mirror.TxFromEventsMeans | internal/indexer/blocks.go:643-679 | a transaction that ended without being stored gets the first event's status, position and times and every event's leg |
| Mirror.GroupByHash | internal/indexer/blocks.go:614-622 | the events of each transaction, transactions in first-event order |
| Mirror.StepMirrors | internal/indexer/blocks.go:610-641 | every input keeps tracker and table in agreement, and active rows nobody tracks arise only by silent forgetting |
| Tracking.ExportedMeans | internal/indexer/tracker.go:490-535 | the stored form repeats each field of the transaction and of its legs in the column of its name |
| Mirror.ImportExact | internal/indexer/tracker.go:539-603 | importing tracks exactly the loaded transactions and rebuilds an exact nonce index |
| Mirror.ExportImport | internal/indexer/tracker.go:490-603 | exporting every tracked transaction and importing them into an empty tracker restores the same transactions and the same nonce slots up to order |
| Mirror.RestartRecovers | internal/indexer/indexer.go:174-214 | load and import recover every tracked transaction in all but its pending timer, and restore the agreement |
| Mirror.EveryLife | internal/indexer/indexer.go:174-214 | at every moment of every life, restarts included, the table mirrors the tracker |
| Paging.Backfill | internal/api/api.go:156-177 | the loop ends and streams the concatenated pages; without ties exactly the rows updated after `since`, each once |
| Paging.OrderMeans | internal/storage/sqlite.go:296-308 | rows are ordered by update time, then transaction, then log index, and a cursor at a row passes over exactly what is not after it |
| Paging.PagingExact | internal/storage/sqlite.go:290-322 | every page size drains the feed exactly if and only if no two rows after the cursor tie |
| Paging.SingleIndexerNeverTies | internal/storage/sqlite.go:44 | one indexer's feed has no ties |
| Paging.GlobalFeedSkips | internal/storage/sqlite.go:296-308 | two indexers' rows can tie, and a page between them skips one |
| Paging.LoadLatestLegs | internal/storage/sqlite.go:324-351 | the newest rows, oldest of them first |
| Paging.ReverseInPlace | internal/storage/sqlite.go:346-349 | the swap loop reverses the slice |
| Broadcast.StreamsSound | internal/event/hub.go:65-104 | after every interleaving each subscriber has seen an unbroken run of events since it subscribed, complete while registered |
| Broadcast.StreamsContinue | internal/event/hub.go:65-104 | a channel closes at most once, and nothing is sent to it after that |
| Broadcast.StepMeans | internal/event/hub.go:65-104 | what each step does to one subscriber's channel: an open one with room gets the event behind what it holds, a full one is closed and keeps what it holds, and no step touches another's |
| Broadcast.Hub.Subscribe | internal/event/hub.go:65-71 | a new open stream from now on |
| Broadcast.Hub.Cancel | internal/event/hub.go:72-79 | closes the subscriber's channel if it is still registered |
| Broadcast.Hub.Emit | internal/event/hub.go:92-104 | delivers to every registered channel, closing the full ones |
| Broadcast.Channel.Receive | internal/event/hub.go:65-66 | takes the oldest buffered event; ends only when closed and empty |
| Units.FormatReads | internal/event/units.go:10-34 | reading the printed number at its scale returns the original, for every integer and scale |
| Units.FormatCanonical | internal/event/units.go:28-33 | no trailing zero after the point |
| Units.LogValueClose | internal/indexer/blocks.go:513-523 | the shortened value of a non-negative amount is at most it and less than a millionth below |
| Limits.GapNeedsLink | internal/indexer/chain.go:99 | an inclusion the catch-up does not find again stays where it was; with the highest one among them, all inclusions are on the node's chain exactly when it contains that one's block |
| GapExample.GapStrands | internal/indexer/chain.go:99 | a complete catch-up after which an inclusion stays off the node's chain |
| Limits.AheadReceipt | internal/indexer/indexer.go:1029-1034 | after an inclusion ahead of the tip, the next block's inclusions are all on its chain exactly when it accounts for each of those ahead |
| Limits.AheadReceiptStrands | internal/indexer/indexer.go:1097-1110 | a run in which it does not, and the inclusion stays off the chain |
| Limits.RescanRepeatsFailure | internal/indexer/tracker.go:261-266 | a second scan of a transaction emits something exactly when it reverted with legs and was not tracked in the block: the same failed events |
| Limits.PendingClash | internal/storage/sqlite.go:128-131 | a pending transaction's legs have distinct row keys exactly when there is at most one |
| Limits.TwoLegs | internal/indexer/matcher.go:134-213 | a token call that carries native value has two, and cannot be stored |

## Left out

- RPC transport, JSON, dialing, subscriptions, retries and backoff: the node oracle stands for them. The finality cache and its time to live: a pass that uses the cached number is one whose request for it stays unanswered.
- SQL text, WAL, RFC 3339 and hex text forms, the formatted value column: the table is a finite map, times are numbers. SaveIndexerState and LoadIndexerState: the saved position and headers are an argument of `Indexing.Indexer.Restored`.
- HTTP and SSE framing, pings, metrics, logging, wallet labels, configuration, HD derivation, signature recovery, the mempool snapshot and its worker pool.
- End-to-end delivery of the events API: events reach the sink before they are persisted, so hub, mirror and paging are stated apart.
- The catch-up age cap, deep reorgs and partly failed rescans in the canonical-inclusion theorem; they are covered by the no-skip theorem only where `Indexing.Indexer.Dispatch` says so.
- Cancellation of the prefetch pipeline. The pipeline is its own step system: the loops of `Indexing.Indexer` ask for one block at a time, and their log sources are the concern of `Scanning` and `LogChunks`.
- 64-bit wrap-around of block numbers and counters: numbers are unbounded naturals. Where the source subtracts, the natural type proves that it cannot underflow.
- The clock is read once per input and once per persisted batch.
- Slot lists are sequences in a map, so sharing of their backing arrays is not modelled; the copy that the source takes before walking a slot is.
- Hub channels of capacity zero: a send to a waiting receiver has no buffer to land in, and the model drops the subscriber.
- Import of rows with malformed values: stored values are numbers.
- Blocks.BlockResolves: assumes every receipt lookup of the block succeeded, because the code leaves a transaction pending when its lookup fails.
- Rescan.RescanIsSilent: bounds the burials between the two scans, because an evicted confirmed tombstone lets the source report its transaction again.
- Indexing.Indexer.Dispatch: canonical inclusion is claimed of steady nodes whose receipts name blocks no newer than the head being handled, because it fails otherwise (`Limits.AheadReceipt`). It starts with the ring's tip not behind the scan: `Indexing.Indexer.Restored` says exactly when a resumed start has that, and one from a saved ring whose head was evicted (`Chain.OverlongScanEvictsTheHead`) can lack it.
- Indexing.Indexer.Restored: transactions restored as mined are within the canonical-inclusion theorem only if the saved headers put them in the tip's ancestry, its first state.
- Mirror.EveryLife: writes succeed unless they clash on a key; a failed write is logged by the source and not repaired.
- Paging.Backfill: the table does not change while it is paged.
