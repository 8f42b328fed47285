# Initia L1: a verified model of its mempool, proposals, governance queues and two codecs

This project models the parts of Initia's L1 node whose correctness depends on many operations keeping several structures
in step, and proves what those parts promise.

* **The priority mempool** (`abcipp/mempool*.go`). Per sender it keeps a contiguous *active* run of nonces and a sparse
  *queued* pool; across senders a rank-ordered index, an entry map, cached bounds and counters. `MempoolState` says what
  each critical section does to the pool without its caches. `SenderState` and `PriorityMempool` are the in-place
  structures; every method is proved against the function of the same purpose applied to the ghost field `abs`. The
  invariant and its preservation are in `MempoolInvariant`, `MempoolPreservation`, `MempoolAdmission`,
  `MempoolPromotion` and `MempoolSections`; the laws over operations and over whole runs in `MempoolLaws`,
  `MempoolConservation`, `MempoolRuns`, `MempoolOrigin`, `MempoolCursor`, `MempoolExpiry`, `MempoolBlocked`,
  `MempoolReplay`, `MempoolSpace`, `MempoolRoom` and `MempoolChecker`; concrete runs in `MempoolPassExample`,
  `MempoolTierExample` and `MempoolExpiryExample`. A run is any sequence of critical sections; what was read outside the
  lock (sequences, clock, sender snapshots) is an arbitrary argument, so every interleaving of callers is covered.
* **Proposals** (`abcipp/proposals.go`): building and verifying, in `Proposals`, `ProposalCoherence` and
  `ProposalLimits`. The ante handler is an arbitrary deterministic function that passes a state along.
* **Event dispatch** (`abcipp/mempool_event.go`): the in-place queue in `EventQueues`, the protocol of producers,
  dispatchers and wake-up tokens as a state machine in `EventDispatch`, and what its consumer learns about the pool in
  `MempoolConsumer`.
* **Governance** (`x/gov`): the keeper's collections and the block's three walks in `GovKeepers`, laws over every history
  of a proposal and genesis in `GovLaws`, coins in `GovCoins`. What a tally finds and whether messages execute are
  arbitrary arguments.
* **Codecs**: the protobuf codec of the derivable public key in `KeyCodec` and `UnknownFields`, BIP-32 path texts in
  `HdPath`.

Some things the code promises, or might be expected to promise, turn out to hold only under a condition. For each there
is a concrete counterexample and a statement of when it holds:

* A same-nonce replacement keeps the rank order along its sender's run if and only if its score beats that of its
  successor (`ReplaceInv`; `WorseTierBreaksOrder` is the counterexample with two tiers). With the single tier of
  `app/abcipp.go` it always does. `SafeReplacement` names the condition wherever it is needed.
* The event stream of a `PromoteQueued` pass describes the new pool if and only if nothing promoted in the pass is
  dropped later in it (`StepReplays`; `PassMisleads` is a run from the empty pool). Conditions known before the pass
  that suffice are in `RoomKeepsPromoted`; without a limit on the active set it always holds.
* A queue expires when its sender was found blocked by every clean-up that visited it over the time-to-live
  (`ExpiryNeedsTtl`, `GapExpires`). That it *remains* blocked, as the comment has it, is true unless one of three kinds of
  step comes between two clean-ups (`BlockedSince`); `ClockOutlivesGap` is a run where it does not remain blocked, and a
  transaction that arrived meanwhile is dropped.
* The gas of a proposal is within the limit if and only if each included transaction's is (`GasWithinLimit`;
  `GasCanWrap`), likewise its bytes while an `int64` can hold them (`SizeWithinLimit`; `SizeCanWrap`). Under constant
  block limits admission guarantees both (`ProposalsFit`).
* A popped event queue of at least 64 uses half of its array only in the cases that `Pop` states; the test looks at the
  capacity left in front of it and never at what was consumed (`ConsumedFrontIsKept`).
* An emergency proposal that is also expedited and is concluded without passing leaves the emergency queue but stays
  flagged, so no walk finds it again: it is *stranded*, and its deposits stay in the module account
  (`StrandingHappens`, `StrandedStays`, `StrandedForever`). If and only if no block does that, the queues stay what
  `InitGenesis` would rebuild (`EndBlocker`) and every proposal past its deadlines is settled exactly once
  (`SettledExactlyOnce`). A proposal can vote past its end in exactly the cases of `OverdueExactly`
  (`LateEmergencyOutlivesVoting` is one).
* An exported governance state can be imported if and only if the module account holds exactly the deposits
  (`RoundTrip`; `SurplusBlocksImport`), although `x/gov/keeper/invariants.go` allows it to hold more.

Where the code and `abcipp/docs` disagree, the model follows the code: `MaxQueuedTotal` does not bound the queue when a
refused promotion is put back (the bound is `MaxQueuedTotal + MaxQueuedPerSender`); a future nonce beyond the global limit
is refused with an error rather than skipped; queued inserts do produce an event, for the app channel only; a commit
raises the cached sequence but never lowers it; and later nonces can outrank earlier ones after the replacement described
above. One more behaviour is easy to overlook: with the ante-rejection reason and a nonce below the sender's run,
`RemoveWithReason` demotes the whole run and still reports that nothing was found.

## Model

| member | source | states |
|---|---|---|
| `MempoolTypes.CompareIsBefore` | abcipp/mempool_tier.go:16-59 | The comparison decides the order `Before`, is antisymmetric, and calls two entries equal only in one (sender, nonce) slot |
| `MempoolTypes.BeforeTotal` | abcipp/mempool_tier.go:16-59 | The index order is irreflexive, asymmetric, and total across slots |
| `MempoolTypes.BeforeTransitive` | abcipp/mempool_tier.go:16-59 | The index order is transitive |
| `MempoolTypes.TierFrom` | abcipp/mempool_tier.go:62-69 | The first matching tier is selected, or the last one when none matches |
| `MempoolTypes.IndexSetAdds` | abcipp/mempool.go:412-422 | Setting an entry in the index keeps it sorted and adds exactly that entry |
| `MempoolTypes.IndexRemoveDrops` | abcipp/mempool.go:425-444 | Removing an entry keeps the index sorted and drops exactly that entry |
| `Senders.SenderState.SetOnChainSeq` | abcipp/mempool_sender_state.go:35-37 | The cached sequence becomes the larger of old and new |
| `Senders.SenderState.NextExpectedIsNext` | abcipp/mempool_sender_state.go:27-32 | The cursor computed from the cached bounds is the one defined on the sender's true active nonces |
| `Senders.SenderState.SetActiveRangeOnInsert` | abcipp/mempool_sender_state.go:46-54 | The cached active bounds are the true bounds after a nonce was added |
| `Senders.SenderState.SetActiveRangeOnRemove` | abcipp/mempool_sender_state.go:63-93 | The cached active bounds are the true bounds after a nonce was removed, at either end or inside, and zero when none is left |
| `Senders.SenderState.SetQueuedRangeOnInsert` | abcipp/mempool_sender_state.go:102-110 | The cached queued bounds are the true bounds after a nonce was added |
| `Senders.SenderState.SetQueuedRangeOnRemove` | abcipp/mempool_sender_state.go:113-146 | The cached queued bounds are the true bounds after a nonce was removed, although the queue may have gaps |
| `Senders.SenderState.ComputeClampedIsClamp` | abcipp/mempool_sender_state.go:150-182 | The rank computed from the cached tail is the rank clamped to the direct predecessor, or else to the tail of the true run |
| `Mempools.PriorityMempool.constructor` | abcipp/mempool.go:104-150 | A new pool is empty and valid; limits that are not positive become 64, 1024 and one minute |
| `Mempools.PriorityMempool.GetOrCreateSenderLocked` | abcipp/mempool.go:168-179 | Registers a sender with an empty record unless it is registered; all caches stay coherent |
| `Mempools.PriorityMempool.CleanupSenderLocked` | abcipp/mempool.go:287-291 | Forgets the sender exactly when it has no entries |
| `Mempools.PriorityMempool.NextOrderLocked` | abcipp/mempool.go:344-346 | Hands out the next order number |
| `Mempools.PriorityMempool.CanAcceptLocked` | abcipp/mempool.go:352-409 | For a pool of any size: refuses what fits no block, and otherwise walks the index backwards for as many entries as must go; in a pool within its limit that is at most the last one |
| `Mempools.WalkBackMeans` | abcipp/mempool.go:382-406 | The backwards walk succeeds if and only if the worst entries other than the replaced one are all outranked, and returns exactly these |
| `Mempools.PriorityMempool.AddEntryLocked` | abcipp/mempool.go:412-422 | Index, entry map, sender map, bounds and tier counter all gain the entry; an unknown sender gets a record |
| `Mempools.PriorityMempool.RemoveEntryLocked` | abcipp/mempool.go:425-444 | Index, entry map, sender map, bounds and tier counter all lose the entry |
| `Mempools.PriorityMempool.InsertQueuedLocked` | abcipp/mempool_insert.go:248-290 | Replaces a worse transaction in the slot, evicts the sender's highest nonce at the sender limit, or refuses at a limit; counter and bounds follow |
| `Mempools.PriorityMempool.CollectPromotableLocked` | abcipp/mempool_insert.go:294-314 | Takes the maximal run of queued nonces from the cursor on out of the queue |
| `Mempools.PriorityMempool.RequeueEntriesLocked` | abcipp/mempool_insert.go:319-329 | Puts the given entries back into the queue |
| `Mempools.PriorityMempool.PromoteAllLocked` | abcipp/mempool_insert.go:204-233 | The promotion loop: each accepted entry is re-stamped and entered after room was made; a refused entry and all later ones return to the queue |
| `Mempools.PriorityMempool.InsertFutureLocked` | abcipp/mempool_insert.go:86-122 | The future-nonce branch: extension check, queueing, and the Removed and Queued events |
| `Mempools.PriorityMempool.InsertActiveLocked` | abcipp/mempool_insert.go:124-242 | The active branch: priority checks, admission, replacement, eviction, promotion, and the order of the events |
| `Mempools.PriorityMempool.InsertItemLocked` | abcipp/mempool_insert.go:69-124 | Refuses, queues or activates by comparing the nonce with the cursor |
| `Mempools.PriorityMempool.Insert` | abcipp/mempool_insert.go:18-243 | The pool afterwards, the error and the events are those of the specification, and every cache and invariant holds again |
| `Mempools.PriorityMempool.RemoveActiveStaleLocked` | abcipp/mempool_remove.go:111-128 | Removes and returns, in nonce order, exactly the sender's active entries below the sequence |
| `Mempools.PriorityMempool.RemoveQueuedStaleLocked` | abcipp/mempool_remove.go:55-77 | Removes and returns, in nonce order, exactly the sender's queued entries below the sequence |
| `Mempools.PriorityMempool.RemoveAllQueuedLocked` | abcipp/mempool_remove.go:80-93 | Empties the sender's queue and returns it |
| `Mempools.PriorityMempool.RemoveNonceLocked` | abcipp/mempool_remove.go:96-108 | Removes one slot, active before queued |
| `Mempools.PriorityMempool.DemoteActiveRangeLocked` | abcipp/mempool_remove.go:139-185 | Moves the active suffix to the queue one entry at a time; what is displaced or refused is returned |
| `Mempools.PriorityMempool.RemoveByReasonLocked` | abcipp/mempool_remove.go:189-223 | Applies the reason's own removal or demotion, advances the sequence if given, drops what became stale, and forgets an empty sender |
| `Mempools.PriorityMempool.RemoveEntriesByReasonLocked` | abcipp/mempool_remove.go:40-52 | Does so for each listed entry that is still active |
| `Mempools.PriorityMempool.RemoveWithReason` | abcipp/mempool_remove.go:15-36 | Pool, error and Removed events are those of the specification; the pool stays valid |
| `Mempools.PriorityMempool.PromoteQueued` | abcipp/mempool.go:219-283 | The writing section over all senders with fetched sequences: stale removal, promotion, clean-up, all Removed events before all Inserted events; the pool stays valid |
| `Mempools.PriorityMempool.SweepSenders` | abcipp/mempool_cleanup.go:85-94 | The first locked phase forgets exactly the senders without entries |
| `Mempools.PriorityMempool.CleanUp` | abcipp/mempool_cleanup.go:114-131 | The second locked phase over all senders with fetched sequences; the pool stays valid |
| `Mempools.PriorityMempool.ExpireQueuedGapLocked` | abcipp/mempool_cleanup.go:177-195 | Starts, keeps or clears the gap clock, or drops the whole queue |
| `Mempools.PriorityMempool.Contains` | abcipp/mempool_query.go:13-31 | True exactly for a transaction whose slot is active or queued |
| `Mempools.PriorityMempool.CountTx` | abcipp/mempool_query.go:34-39 | The number of active and queued slots |
| `Mempools.PriorityMempool.GetTxDistribution` | abcipp/mempool_query.go:42-53 | Each tier name maps to the number of active entries of that tier; a non-empty queue is listed under its own name, in place of a tier of that name |
| `Mempools.PriorityMempool.Select` | abcipp/mempool_query.go:56-84 | The snapshot lists exactly the active entries, in index order |
| `Mempools.PriorityMempool.Lookup` | abcipp/mempool_query.go:87-102 | Finds the transaction of a slot, active before queued |
| `MempoolInvariant.NextIsRunEnd` | abcipp/mempool_sender_state.go:27-32 | A sender's active nonces are exactly those from its cached sequence up to its cursor |
| `MempoolInvariant.NeverEvictsOwn` | abcipp/mempool.go:382-406 | Admitting a transaction at its sender's cursor never evicts an entry of the same sender |
| `MempoolInvariant.LastIsTail` | abcipp/mempool.go:382-406 | The last entry of the index is the tail of its sender's run, so evicting it opens no hole |
| `MempoolAdmission.EvictInv` | abcipp/mempool_remove.go:139-185 | A capacity eviction takes exactly one entry from the active set and touches no other sender |
| `MempoolAdmission.MakeRoomInv` | abcipp/mempool_insert.go:176-190 | Making room keeps the invariant, leaves the admitted sender untouched and registered, and displaces at most one active entry |
| `MempoolAdmission.ReplacementRanks` | abcipp/mempool_sender_state.go:150-182 | A same-nonce replacement keeps clamped ranks falling along the run if and only if its score beats that of the entry following it |
| `MempoolAdmission.ReplaceInv` | abcipp/mempool_insert.go:136-191 | A replacement keeps the whole invariant if and only if its score beats that of the entry following it |
| `MempoolAdmission.BetterTierKeepsRank` | app/abcipp.go:88-97 | A replacement of higher priority in the same or a better tier satisfies that condition |
| `MempoolPromotion.PromoteInv` | abcipp/mempool.go:236-264 | A promotion run keeps the invariant and the sender's record, whatever capacity evictions it causes |
| `MempoolPromotion.RequeueInv` | abcipp/mempool_insert.go:319-329 | Putting refused entries back keeps the invariant, including the looser global queue bound |
| `MempoolPreservation.CommitInv` | abcipp/mempool_remove.go:189-223 | A committed removal keeps the invariant |
| `MempoolPreservation.RejectInv` | abcipp/mempool_remove.go:189-223 | An ante rejection keeps the invariant |
| `MempoolSections.InsertInv` | abcipp/mempool_insert.go:18-243 | `Insert` keeps the invariant under the replacement condition |
| `MempoolSections.PromoteQueuedInv` | abcipp/mempool.go:219-283 | The writing section of `PromoteQueued` keeps the invariant for any sequences read meanwhile |
| `MempoolSections.CleanSendersInv` | abcipp/mempool_cleanup.go:114-131 | The second phase of `cleanUpEntries` keeps the invariant |
| `MempoolRuns.RunInv` | abcipp/mempool_invariant.go:9-168 | In every state of every interleaving of the critical sections: gap-free runs from the cached sequence, queues at or beyond the cursor, falling ranks, and the bounds MaxTx, maxQueuedPerSender and maxQueuedTotal + maxQueuedPerSender |
| `MempoolRuns.SingleTierRunInv` | app/abcipp.go:88-97 | With one tier, as configured for L1, this holds for every run without any condition |
| `MempoolChecker.ChecksPass` | abcipp/mempool_invariant.go:9-168 | Every check of `ValidateInvariants` passes on a valid pool: ranges, contiguity, ranks, keys, cross references and all counts |
| `MempoolCursor.StepSteady` | abcipp/mempool_cleanup.go:177-195 | No critical section but the clean-up moves a gap clock, and none lowers the sequence of a sender that stays registered |
| `MempoolCursor.SequenceNeverFalls` | abcipp/mempool_sender_state.go:35-37 | Over any run the cached sequence of a sender that stays registered never decreases |
| `MempoolLaws.SelectOrder` | abcipp/mempool_query.go:56-84 | Although ordered by global rank, the iterator lists each sender's transactions by increasing nonce, without gaps, from the cached sequence on |
| `MempoolLaws.PromotionMaximal` | abcipp/mempool_insert.go:204-233 | Promotion moves a prefix of the queue, in order, loses nothing else of the sender, and stops only at a gap or at a transaction that admission refuses |
| `MempoolLaws.InsertDrains` | abcipp/mempool_insert.go:201-233 | After a successful active insert the transaction is active and nothing promotable of its sender is left waiting |
| `MempoolLaws.DemotionKeepsLowest` | abcipp/mempool_remove.go:139-185 | With room in the global limit, a demotion leaves the sender's queue as exactly the maxQueuedPerSender lowest nonces of the old queue and the suffix, and returns exactly the others |
| `MempoolLaws.FailedInsertChangesNothing` | abcipp/mempool_insert.go:69-200 | A failed `Insert` changes no entry and emits nothing; only an order number and an empty sender record may remain |
| `MempoolLaws.AcceptedBeatsOccupant` | abcipp/mempool_insert.go:136-168 | An accepted transaction has a higher priority than whatever held its slot, active or queued |
| `MempoolLaws.AdmitsExactly` | abcipp/mempool.go:352-409 | Admission succeeds if and only if the transaction fits a block and there is a free slot or some active transaction it outranks |
| `MempoolLaws.StaleExactly` | abcipp/mempool_insert.go:69-84 | `Insert` reports a stale sequence if and only if the nonce is below the cached on-chain sequence |
| `MempoolLaws.CommitExactly` | abcipp/mempool_remove.go:189-223 | A commit empties exactly the sender's slots up to the committed nonce and changes no other slot |
| `MempoolLaws.RejectCutsRun` | abcipp/mempool_remove.go:189-223 | An ante rejection leaves exactly the run below the rejected nonce active, and the transaction leaves the pool |
| `MempoolExpiry.ClockMeans` | abcipp/mempool_cleanup.go:177-195 | Over any run, a gap clock showing t was started by a clean-up at time t that found the sender blocked, and every later clean-up that visited the sender found it blocked too |
| `MempoolExpiry.ExpiryNeedsTtl` | abcipp/mempool_cleanup.go:175-195 | Over any run, a clean-up that drops a queued transaction which is not stale found the sender blocked, as did every clean-up that visited it since one at least the time-to-live earlier; it drops the whole queue |
| `MempoolExpiry.GapExpires` | abcipp/mempool_cleanup.go:175-195 | Conversely, once a clean-up has found the sender blocked and every later one that visits it does too, the first at or after the time-to-live drops its whole queue |
| `MempoolBlocked.StaysBlocked` | abcipp/mempool_cleanup.go:175-195 | A blocked sender stays blocked through every step except an insert of the missing nonce, a removal of one of its own transactions, and a pass or clean-up that visits it |
| `MempoolBlocked.BlockedSince` | abcipp/mempool_cleanup.go:175-195 | Over any run, a sender whose gap clock runs was blocked after every step since the first sighting, as long as none of these steps came between |
| `MempoolExpiryExample.ClockOutlivesGap` | abcipp/mempool_cleanup.go:175-195 | A run from the empty pool in which a sender is seen blocked, is then served, and is blocked anew by a commit; the next clean-up drops a transaction that came in between, although the sender was not blocked all the time |
| `MempoolTierExample.WorseTierBreaksOrder` | abcipp/mempool_insert.go:136-191 | A run from the empty pool with two tiers: a replacement of higher priority in the worse tier is accepted and then ranks behind its successor |
| `MempoolConservation.InsertConserves` | abcipp/mempool_insert.go:136-239 | Pool members before plus the accepted transaction equal the members after plus the removed list |
| `MempoolConservation.RemoveByReasonConserves` | abcipp/mempool_remove.go:189-223 | Members before equal members after plus the returned list |
| `MempoolConservation.PromoteQueuedConserves` | abcipp/mempool.go:219-283 | Members before equal members after plus the removed list of the pass |
| `MempoolConservation.CleanConserves` | abcipp/mempool_cleanup.go:114-131 | Members before equal members after plus what was stale or expired |
| `MempoolRuns.RunConserves` | abcipp/mempool_insert.go:136-239 | Over a whole run, the accepted transactions are those still pooled plus those reported removed |
| `MempoolRuns.NoDuplicates` | abcipp/mempool_remove.go:139-223 | After any step, pool and removed list are disjoint and free of duplicates |
| `MempoolRuns.SlotPriorityRises` | abcipp/mempool_insert.go:136-168 | Over any run, a slot that is never empty changes only to transactions of strictly higher priority, through promotions and demotions |
| `MempoolReplay.StepReplays` | abcipp/mempool.go:279-282 | Folding a step's events over the pooled encodings gives the new pool: always, except that for `PromoteQueued` it holds if and only if nothing promoted in the pass was dropped later in it |
| `MempoolReplay.RunReplays` | abcipp/mempool_event.go:52-101 | Over a whole run that meets this condition, folding the event stream from nothing reproduces the pooled transactions |
| `MempoolSpace.SpaciousTurn` | abcipp/mempool.go:236-264 | If everything pooled would fit into the queues, a sender's turn in a pass drops only its own stale transactions, and that stays so |
| `MempoolRoom.RoomKeepsPromoted` | abcipp/mempool.go:236-264 | Known before the pass: if it visits one sender, or the active set has a slot for everything pooled, or the queues have, everything it promotes stays pooled |
| `MempoolRoom.UntroubledRunReplays` | abcipp/mempool_event.go:52-101 | Over every run whose passes start that way, folding the event stream reproduces the pool |
| `MempoolRoom.UnlimitedRunReplays` | abcipp/mempool_event.go:52-101 | Without a limit on the active set this holds for every run |
| `MempoolConsumer.ConsumerFollows` | abcipp/mempool_event.go:52-101 | At any moment of such a run, a consumer that folds what the app channel delivered lacks exactly the event in hand and the queued ones |
| `MempoolConsumer.ConsumerCatchesUp` | abcipp/mempool_event.go:122-159 | Before the stop, in whatever order the app dispatcher finishes, it comes to rest within a bound, and then that consumer knows exactly the pooled transactions |
| `MempoolPassExample.SetupReaches` | abcipp/mempool_insert.go:69-233 | Five inserts and a commit lead from the empty pool to a pool with a free slot and three promotable transactions |
| `MempoolPassExample.PassMisleads` | abcipp/mempool.go:219-283 | A run from the empty pool whose last step, a pass over three senders, demotes and drops a transaction it promoted: up to the pass the events reproduce the pool, after it they claim the transaction is still pooled |
| `Proposals.Prepare` | abcipp/proposals.go:62-191 | The selection loop returns the entries that are included and those to remove, as the fold over the iterator defines them; height 1 passes the request through |
| `Proposals.Process` | abcipp/proposals.go:230-331 | Accepts exactly when every transaction decodes, declares gas, stays within the running machine totals and passes the ante handler in turn |
| `Proposals.BuiltChecks` | abcipp/proposals.go:111-191 | Verifying what was built reaches, step for step, the builder's state and totals, also where machine integers wrap |
| `Proposals.ListsAreFates` | abcipp/proposals.go:111-191 | The two lists are exactly the entries of the corresponding fates, in order |
| `Proposals.RejectedInTurn` | abcipp/proposals.go:100-191 | An entry is rejected by the ante handler only after every earlier entry of its sender was included or rejected |
| `Proposals.RejectedAfterItsRun` | abcipp/proposals.go:100-191 | Over a valid pool: the whole run below a rejected nonce was included or rejected in the same proposal |
| `Proposals.RemovalJustified` | abcipp/proposals.go:120-184 | An entry is put on the removal list only if it alone exceeds a limit or the ante handler rejected it; running out of room never removes |
| `Proposals.GasWithinLimit` | abcipp/proposals.go:145-168 | The proposal's true gas stays within the limit if and only if every included transaction does alone; then no `uint64` total wraps |
| `Proposals.WithinLimits` | abcipp/proposals.go:111-191 | When every entry of the iterator fits a block alone, the proposal fits in bytes and gas and no machine total wraps |
| `Proposals.SizeWithinLimit` | abcipp/proposals.go:120-143 | The same for bytes, when the limit is below 2^62 or all sizes together are below 2^63 |
| `Proposals.SizeCanWrap` | abcipp/proposals.go:120-143 | Otherwise it fails: under a limit of 2^63 - 1, two transactions of 2^62 bytes are both included |
| `Proposals.GasCanWrap` | abcipp/proposals.go:145-168 | Without the condition, a transaction of gas 2^64 - 1 is included after one of gas 1 under a limit of 100 |
| `ProposalLimits.RunFits` | abcipp/mempool.go:368-378 | Over any run under constant block limits, every active transaction fits a block, because admission and promotion check it |
| `MempoolOrigin.RunPools` | abcipp/mempool_insert.go:18-243 | Over any run whatever, also one that breaks the rank order, every pooled transaction is filed under its own key and is one that an insert stored |
| `ProposalLimits.ProposalsFit` | abcipp/proposals.go:111-191 | So whatever that run was, every proposal built from the pool stays within the limits, without wrap |
| `ProposalCoherence.Coherence` | abcipp/proposals.go:111-191 | Whatever run the pool went through, `ProcessProposal` accepts what `PrepareProposal` builds from it in the same state (Requirement 3 of the CometBFT v0.38 ABCI++ specification) |
| `ProposalCoherence.PrepareProposal` | abcipp/proposals.go:62-225 | The handler over the pool: the proposal is that of the snapshot, and a listed transaction is removed only if its slot still holds it |
| `ProposalCoherence.RemoveListed` | abcipp/proposals.go:193-203 | Removes each listed transaction whose slot still holds the same encoding, and leaves refilled slots alone; the pool stays valid |
| `EventQueues.EventQueue.Append` | abcipp/mempool_event.go:73-79 | Appends at the back, in place while the array has room and otherwise into a larger one |
| `EventQueues.EventQueue.Pop` | abcipp/mempool_event.go:142-149 | Takes the front, clears its slot and keeps the rest in order; compacts exactly when at least 64 events are left and the unused end of the array is longer than they are; and uses half of the array afterwards if and only if it would have anyway, or it compacts into an array at most twice as long |
| `EventQueues.ConsumedFrontIsKept` | abcipp/mempool_event.go:145-149 | The comment's bound fails: 256 appended to an array that doubles, and 192 consumed, leave 64 events in all 256 slots |
| `EventQueues.EventQueue.Release` | abcipp/mempool_event.go:137-141 | An emptied queue lets go of its array |
| `EventDispatch.RunKeepsEvents` | abcipp/mempool_event.go:52-159 | Under any interleaving, delivered events, the one in hand and the queued ones are the produced sequence, and a waiting dispatcher with a non-empty queue has a token waiting or about to be posted |
| `EventDispatch.DeliveredIsPrefix` | abcipp/mempool_event.go:122-198 | Each channel receives a prefix of what producers announced to it; before the stop everything missing is in hand or queued |
| `EventDispatch.CometIsFiltered` | abcipp/mempool_event.go:73-79 | When producers see both channels, the comet stream is the app stream without Queued events |
| `EventDispatch.EverythingIsDelivered` | abcipp/mempool_event.go:122-159 | From any state before the stop, every order of pending posts and dispatcher actions comes to rest within a bound, and at rest everything produced has been delivered |
| `EventDispatch.StopReturns` | abcipp/mempool_event.go:38-49 | After the stop signal the dispatcher is never stuck on a consumer and ends within a bounded number of actions |
| `GovKeepers.GovKeeper.SetProposal` | x/gov/keeper/proposal.go:204-218 | Stores the proposal and keeps the voting index in step |
| `GovKeepers.GovKeeper.DeleteProposal` | x/gov/keeper/proposal.go:221-258 | Removes the proposal and exactly its own queue entries |
| `GovKeepers.GovKeeper.SubmitProposal` | x/gov/keeper/proposal.go:98-123 | A new proposal under the next number, which was never used, enters the inactive queue |
| `GovKeepers.GovKeeper.ActivateVotingPeriod` | x/gov/keeper/proposal.go:261-295 | Moves the proposal from the inactive to the active queue with the period of its kind |
| `GovKeepers.GovKeeper.ActivateEmergencyProposal` | x/gov/keeper/proposal.go:297-334 | Schedules the first emergency tally and keeps the queues right |
| `GovKeepers.GovKeeper.AddDeposit` | x/gov/keeper/deposit.go:66-207 | Accepts exactly known denominations that reach the ratio, records the deposit and the total, opens voting at the minimum deposit, raises an emergency for a submitter at the emergency minimum; queues and module account stay right |
| `GovKeepers.GovKeeper.RaiseEmergency` | x/gov/keeper/custom_msg_server.go:103-141 | Raises an emergency exactly for a submitter and a voting proposal that is not one yet and holds the emergency minimum |
| `GovKeepers.GovKeeper.AddVote` | x/gov/keeper/vote.go:16-60 | Records the vote exactly while the proposal is voting |
| `GovKeepers.GovKeeper.CancelProposal` | x/gov/keeper/proposal.go:143-201 | Settles the deposits, deletes votes and proposal, and refuses after the voting end |
| `GovKeepers.GovKeeper.SettleDeposits` | x/gov/keeper/deposit.go:41-52 | All deposits of the proposal leave together and are recorded once; the module account always has the coins and keeps what it held beyond the deposits |
| `GovKeepers.SettlesCovered` | x/gov/keeper/invariants.go:22-46 | After a settlement the module account still covers all other deposits, with the same surplus |
| `GovKeepers.DepositCovered` | x/gov/keeper/invariants.go:22-46 | After a deposit the module account covers all deposits, with the same surplus |
| `GovKeepers.GovKeeper.HandleTallyResult` | x/gov/abci.go:236-392 | The stored proposal, votes and deposits are those of the outcome; the queues still equal the rebuilt ones if and only if it is not a failing proposal that is both emergency and expedited |
| `GovKeepers.GovKeeper.EndBlocker` | x/gov/abci.go:22-234 | For every store, stranded proposals included: every proposal takes exactly its own turn, in whatever order the walks visit them, the module account stays solvent, and the queues equal those `InitGenesis` would rebuild if and only if the block strands no proposal |
| `GovTypes.WalksCompose` | x/gov/abci.go:31-231 | The three walks do not interfere: each proposal takes part in at most one |
| `GovTypes.StrandsExactly` | x/gov/abci.go:262-273 | Only a block strands a proposal, exactly when it concludes one that is emergency and expedited without passing it; no block ends that |
| `GovTypes.ConsistentExactly` | x/gov/genesis.go:59-87 | The queues are those `InitGenesis` would rebuild if and only if no proposal is stranded |
| `GovLaws.StrandedStays` | x/gov/abci.go:134-137 | No list of blocks changes a stranded proposal, its deposits or its votes |
| `GovLaws.StrandedForever` | x/gov/keeper/proposal.go:166-169 | Once its voting end has passed, no event at all pays out the deposits of a stranded proposal |
| `GovLaws.StrandingHappens` | x/gov/abci.go:262-346 | A submission, a deposit and a block lead from nothing to a stranded proposal whose deposit no later block moves |
| `GovLaws.RegularNeverStrands` | x/gov/abci.go:330-346 | A proposal not submitted as expedited is never stranded, whatever happens to it |
| `GovLaws.OverdueExactly` | x/gov/abci.go:102-231 | After a block a proposal votes past its end if and only if it was just converted from expedited with its longer period over, became an emergency too late, or is stranded |
| `GovLaws.LateEmergencyOutlivesVoting` | x/gov/keeper/proposal.go:306-311 | An emergency raised just before the voting end outlives it, because its first tally is not capped |
| `GovLaws.RescheduleAdvances` | x/gov/abci.go:189-208 | A rescheduled tally lies strictly after the block time, not past the voting end, and one interval closer to it |
| `GovLaws.RoundsIsCeiling` | x/gov/abci.go:189-196 | The bound below counts intervals as the ceiling of the distance over the interval |
| `GovLaws.TallyShows` | x/gov/abci.go:155-231 | A block changes an emergency proposal in the queue if and only if it tallies it |
| `GovLaws.TalliesAreBounded` | x/gov/abci.go:155-231 | Over any later history (blocks at any times, deposits, votes, flags, cancellations), at most ceil((end - first tally) / interval) + 1 blocks tally an emergency proposal, and a block past both its end and its tally leaves it concluded with nothing held, or stranded |
| `GovLaws.EmergencySettles` | x/gov/abci.go:155-231 | With blocks only, it is stranded with everything held if and only if one of them strands it, and otherwise concluded with nothing held |
| `GovLaws.DepositsSettleOnce` | x/gov/keeper/deposit.go:294-304 | Over any history a proposal's deposits are held in full, with their sum as its total, until they are refunded, burned or charged all at once and at most once; votes exist only while it is voting |
| `GovLaws.SettlesExactly` | x/gov/abci.go:236-256 | Enough blocks past its deadlines conclude an open proposal and refund or burn exactly what was held, or leave it stranded with everything held: the latter if and only if one of them strands it |
| `GovLaws.SettledExactlyOnce` | x/gov/abci.go:236-256 | After any history, blocks past the deadlines have paid out all deposits ever made in exactly one payout, if and only if none of them strands the proposal |
| `GovLaws.RegularSettles` | x/gov/abci.go:236-256 | For a proposal not submitted as expedited this holds without condition |
| `GovLaws.ThresholdsMet` | x/gov/keeper/deposit.go:133-171 | Over any history a proposal past its deposit period holds the minimum deposit of its kind, also after a conversion, and an emergency the emergency minimum |
| `GovLaws.InitGenesis` | x/gov/genesis.go:17-99 | Stores everything imported and rebuilds consistent queues; starts if and only if the module account holds exactly the deposits |
| `GovLaws.ExportGenesis` | x/gov/genesis.go:102-154 | The exported lists hold every proposal, deposit and vote once, with parameters, constitution and starting number |
| `GovLaws.RoundTrip` | x/gov/genesis.go:17-154 | Export then import succeeds if and only if the module account holds nothing beyond the deposits, and restores the whole store, queues included, if and only if no proposal is stranded |
| `GovLaws.SurplusBlocksImport` | x/gov/genesis.go:17-154 | A valid store whose module account holds one coin beyond the deposits: its export cannot be imported |
| `KeyCodec.SovIsLength` | crypto/derivable/keys.pb.go:215-217 | The size formula is the length of the varint |
| `KeyCodec.SizeExact` | crypto/derivable/keys.pb.go:190-213 | `Size` is the exact length of the encoding |
| `KeyCodec.EncodeVarint` | crypto/derivable/keys.pb.go:179-189 | Writes the varint in place so that it ends at the offset and touches nothing else |
| `KeyCodec.MarshalToSizedBuffer` | crypto/derivable/keys.pb.go:143-177 | The backwards writer fills exactly the end of the buffer with the encoding |
| `KeyCodec.Marshal` | crypto/derivable/keys.pb.go:128-136 | The whole buffer is the encoding |
| `KeyCodec.ReadVarintAt` | crypto/derivable/keys.pb.go:227-240 | The varint loop: at most ten bytes into a `uint64`, with its two errors |
| `KeyCodec.Skip` | crypto/derivable/keys.pb.go:401-478 | The skipping loop computes `SkipFrom`, with every error; what that accepts is the next row |
| `UnknownFields.SkipsExactly` | crypto/derivable/keys.pb.go:401-478 | Skipping accepts n bytes if and only if they are one well-formed field of the wire format: any wire type, varints of any form, nested groups |
| `UnknownFields.ReadsAny` | crypto/derivable/keys.pb.go:227-240 | The varint loop reads every varint, shortest form or not, to the number it spells cut to 64 bits |
| `UnknownFields.UnknownIsIgnored` | crypto/derivable/keys.pb.go:221-400 | A well-formed unknown field placed between whole fields does not change whether or to what `Unmarshal` decodes |
| `KeyCodec.Unmarshal` | crypto/derivable/keys.pb.go:221-400 | The parsing loop: tags, wire types, lengths, unknown fields and every error |
| `KeyCodec.ReadsWritten` | crypto/derivable/keys.pb.go:179-189 | Reading back a written varint, wherever it stands, gives the value, for every 64-bit value |
| `KeyCodec.RoundTrip` | crypto/derivable/keys.pb.go:128-400 | `Unmarshal` of the encoding gives back the key, for every key |
| `KeyCodec.Merges` | crypto/derivable/keys.pb.go:221-400 | Concatenated encodings merge field by field and the last set value wins |
| `HdPath.ParseDerivationPath` | crypto/ledger/accounts/hd.go:68-118 | The parsing loop: absolute and relative paths, white space, hardened components, ranges and every error |
| `HdPath.PathString` | crypto/ledger/accounts/hd.go:122-136 | The printing loop |
| `HdPath.PathRoundTrip` | crypto/ledger/accounts/hd.go:68-136 | Parsing the printed form gives back every path of `uint32` components except the empty one, which is refused |
| `HdPath.RelativeRoundTrip` | crypto/ledger/accounts/hd.go:68-136 | Without its prefix the printed form is appended to the default root |

## Left out

- Mempools.PriorityMempool.Insert: is stated for replacements that satisfy `SafeInsert`; for the others `ReplaceInv` shows that the invariant, which later calls rely on, is lost. An admission can then evict the last entry of its own sender and forget the sender; the source goes on with the forgotten record, and the model does not follow that. With one tier every insert satisfies it.
- Mempools.PriorityMempool.InsertItemLocked: the same.
- Mempools.PriorityMempool.InsertActiveLocked: the same.
- MempoolSections.InsertInv: the same.
- MempoolLaws.InsertDrains: the same.
- MempoolConservation.InsertConserves: the same.
- MempoolRuns.RunInv: excludes runs with such a replacement; `SingleTierRunInv` excludes none.
- MempoolRuns.RunConserves: the same.
- Mempools.PriorityMempool.RemoveEntryLocked: takes an entry that is active; every caller passes one, and for another the source would miscount the tier.
- Mempools.PriorityMempool.RequeueEntriesLocked: takes distinct entries whose slots are free; every caller passes such, and for others the source would miscount the queue.
- Mempools.PriorityMempool.RemoveAllQueuedLocked: returns the queue in nonce order, where the source follows the map's iteration order.
- Mempools.PriorityMempool.PromoteQueued: models the section that writes; the sender snapshot and the fetched sequences of the sections before it are arbitrary arguments.
- MempoolBlocked.BlockedSince: its condition suffices; a refused insert of the missing nonce, or a removal that finds nothing, also leaves the sender blocked.
- MempoolConsumer.ConsumerFollows: takes the pass condition of `UntroubledRunReplays`, and an app channel that was set before the first event.
- MempoolConsumer.ConsumerCatchesUp: the same.
- MempoolReplay.StepReplays: for `PromoteQueued` the exact condition is on the outcome of the pass, because evictions later in the pass depend on all of it; `RoomKeepsPromoted` gives one on the state before.
- MempoolReplay.RunReplays: the same; `UntroubledRunReplays` and `UnlimitedRunReplays` are stated on the states before.
- ProposalCoherence.PrepareProposal: is stated for a pool that nobody else changes between the snapshot and the removals; `RemoveListed` is stated for any pool, and the removals as such are steps of any run.
- Proposals.GasWithinLimit: its condition is on what was included; `WithinLimits` and `ProposalsFit` start from the entries and from the run.
- GovKeepers.GovKeeper.EndBlocker: leaves out the branches for proposals that do not decode, and the hooks.
- GovKeepers.GovKeeper.SubmitProposal: leaves out the checks on messages, metadata and the initial deposit, which is an `AddDeposit` that follows.
- Governance parameters are constant over a history, and nobody but depositors sends coins to the module account.
- Machine-integer wrap of nonces, order numbers and tier scores in the mempool; they are unbounded there, so `activeMax + 1` and `nonce + 1` never overflow.
- `SetMaxQueuedPerSender`, which changes a limit while the pool is in use, and the construction of tier matchers from the configuration.
- The last phase of `cleanUpEntries`: choosing each sender's head and running the ante handler on it. Its removals are `RemoveWithReason` steps.
- `GetTxInfo`, `NextExpectedSequence` and the two iterating queries: they read one map or one cursor, which `Lookup`, `NextExpectedIsNext` and `Select` already cover.
- The identity of event channels: a dispatcher that keeps sending to a replaced channel until its queue is empty is not distinguished.
- Logging, telemetry, panic recovery, tickers and the start and stop of the cleaning worker.
- How votes are weighed, and how a cancellation's charge is divided between burning and a destination.
- The difference between a nil and an empty byte slice in the public key, `MarshalTo`, JSON forms of paths and the path iterators; path texts are sequences of Unicode characters.
