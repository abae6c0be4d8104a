# Verification of the sequence service

A Dafny model of the per-key monotonic ID service and of the protocol that keeps its IDs unique and increasing
while slots move between processes. Durations and times are integers, IDs are unbounded integers except where the
64-bit watermark limit is checked, and one store transaction is one atomic step.

How the parts fit:

- `Tables`, `Transactions` and `Automaton` give every authority transaction as a function of the tables it locks and
  show that each keeps the coupling between ownership, handoffs and leases. `AuthorityStore` is the same store as a
  class whose loops are proved to compute those functions. `CommandEffects` and `TransactionEffects` say, from the
  tables alone, when each transaction and each handoff command acts and what it then does. `StoreRuns`,
  `HandoffIdentity`, `Budgets`, `Retargets` and `Coordinator` are about whole histories of transactions; a commit
  counts whether or not its caller learnt of it.
- `Local` and `Allocator` are one process's gates, revision and deadline. `Fleet` runs all processes, their request
  threads, real time, the storage clock and the monotonic clocks together, one atomic read or write per step.
  `FleetRuns`, `GateRuns` and `RevisionRuns` are about its runs; `Threshold` shows how long the quiet window must be,
  and `HandoverRun` is a whole acknowledged release, from one process's serving to the next one's.
  The hypotheses about the storage clock and the quiet window are one predicate, `Fleet.Timed`; only the timed results
  assume it. The others assume at most that monotonic clocks do not run backwards.
- `Cursor` is one key state with its seqlock, standby range and single fetch, under any interleaving of threads.
  `CursorRuns` is about its runs.
- `Order` runs the fleet and every key state of one key side by side; `OrderRuns` has the global order.
- `Members`, `Placement`, `Migrations`, `Route`, `KeyHash` and `ClientBatch` are the planners, the route pipeline, the
  key hash and the client.

`dafny verify dfyconfig.toml` checks everything.

## Model

| member | source | states |
|---|---|---|
| OrderRuns.GlobalOrder | internal/sequence/biz/authority.go:608-645 | Under the storage-clock bound and a sufficient quiet window: of any two served blocks of a key, whichever instances served them, the one whose cursor advanced later lies wholly above the other, across takeovers, drains, boundaries, releases, re-claims and evictions. |
| OrderRuns.HeldBlocksRise | internal/sequence/biz/allocation.go:173-196 | Without any clock: two served blocks of a key whose advances the store stood behind rise in the order of those advances. |
| OrderRuns.BlocksWereHeld | internal/sequence/biz/authority.go:620-645 | Under the timed hypotheses every served block was advanced over while the store named its instance at its gate's epoch. |
| FleetRuns.ServedWhileHeld | internal/sequence/biz/authority.go:620-645 | The same for every cursor advance of the fleet: the pre-check, the pause bound and the post-check's second look at `draining` let only advances through that were made while the store named the instance and epoch. |
| FleetRuns.ServedInEpochOrder | internal/sequence/biz/authority.go:620-645 | Served advances of one slot are in epoch order, and one epoch is one instance's. |
| Threshold.ExactThreshold | internal/sequence/biz/config.go:231-247 | Silent takeover is safe (under all clocks within the bound, in all runs) if and only if the quiet window is at least local deadline + longest pause + drift + jump. |
| Threshold.FloorIsSafe | internal/sequence/biz/config.go:244-247 | The configured floor of the quiet window meets that threshold. |
| FleetRuns.FloorSuffices | internal/sequence/biz/config.go:231-257 | It clears the threshold by twice the clock margin. |
| FleetRuns.ProcessNeverUndoes | internal/sequence/biz/authority.go:117-173 | In any run, whatever the storage clock does: a withdrawn gate is never open again, shutdown latches, and an armed deadline never moves back. |
| GateRuns.OpensAfterRenewal | internal/sequence/biz/authority.go:193-225 | A gate opens only after a renewal committed at the revision of the applied snapshot, at a moment when storage had the slot OWNED by this process at the gate's epoch. |
| GateRuns.DeadlineMoves | internal/sequence/biz/authority.go:193-225 | The shared deadline moves only forward and only to send time + local term of a renewal that was sent, then committed, then found not to have run out, and only while every withdrawn gate is closed. |
| FleetRuns.AcknowledgedDrainIsFinal | internal/sequence/biz/authority.go:384-391 | Whatever the clocks: once a drain is acknowledged on record, no request is inside that epoch's gate, then or ever after. |
| HandoverRun.AcknowledgedReleaseIsPrompt | internal/sequence/biz/authority.go:490-552 | Whatever the quiet window, some run serves an ID, releases the slot, acknowledges, and has another process claim it and serve the next ID before the boundary on record, the store standing behind both. |
| AllocatorState.Allocator.ApplyAuthority | internal/sequence/biz/authority.go:117-173 | Applying a snapshot closes and withdraws the gates it no longer confirms, installs closed gates for what it gained, lists what may open, and publishes its revision; a refused snapshot changes nothing. |
| Local.ApplyServes | internal/sequence/biz/authority.go:117-173 | After applying a snapshot a gate is served if and only if the snapshot grants its slot, OWNED, at its epoch. |
| Local.ApplyExactly | internal/sequence/biz/authority.go:141-171 | Gate by gate: one served no more is closed, withdrawn and due an acknowledgement; one served before and after is as it was; a new one starts closed and empty; any other is left alone. |
| Local.ApplyOpens | internal/sequence/biz/authority.go:153-169 | What the next renewal may open are exactly the served gates that are closed. |
| Local.DrainsStay | internal/sequence/biz/authority.go:141-151 | An acknowledgement already due stays due, and withdrawn gates join it. |
| AllocatorState.Allocator.DetachAll | internal/sequence/biz/authority.go:101-114 | Shutdown closes and withdraws every gate and leaves nothing to open. |
| Local.DetachExactly | internal/sequence/biz/authority.go:101-114 | The same gate by gate: every gate served is closed and due an acknowledgement, and nothing else changes. |
| AllocatorState.Allocator.AcceptRenewal | internal/sequence/biz/authority.go:205-222 | A renewal reply that is in time, active and at the current revision moves the deadline and opens exactly the listed gates; any other reply changes nothing. |
| AllocatorState.KeyCache.EvictIdleCandidates | internal/sequence/biz/allocator.go:710-766 | Eviction retires exactly the idle, unreferenced, fetch-free entries among the candidates, removes them from the table, and touches no other. |
| RevisionRuns.RevisionNamesView | internal/sequence/data/ownership_data.go:217-281 | In every run, whatever its clocks, two stores that give an instance the same revision give it the same slots, epochs and states. |
| RevisionRuns.MatchProvesView | internal/sequence/data/sequence_data.go:167-208 | So a renewal, reservation or claim that commits at a revision proves the view read at that revision is still current. |
| StoreRuns.RevisionFidelity | internal/sequence/data/ownership_data.go:160-168 | Of arbitrary transaction sequences: while a lease row persists its revision never falls, and equal revisions mean equal views. |
| StoreRuns.CouplingHolds | internal/sequence/data/handoff_data.go:298-412 | In every reachable store: PLANNED and READY mean OWNED by the source at its epoch, a slot is DRAINING exactly under a DRAINING intent of that source and epoch with a boundary, TRANSFERRED means OWNED by the target one epoch on, and every owner has a lease. |
| HandoffIdentity.LiveIntentsMatch | internal/sequence/data/handoff_data.go:329-395 | The source checks of PREPARE, ACK_DRAIN and TRANSFER never fail on a phase those commands accept. |
| HandoffIdentity.RecoveryCancelsOnlyUndrained | internal/sequence/data/handoff_data.go:502-566 | Recovery cancels only PLANNED and READY intents: its mismatch branches for DRAINING and TRANSFERRED ones are dead. |
| HandoffIdentity.IdNamesIntent | internal/sequence/data/handoff_data.go:298-328 | Two rows of a slot with one ID are the same intent: same source, epoch and target. |
| StoreRuns.RowsMoveForward | internal/sequence/data/ownership_data.go:337-404 | A slot's row only moves forward: by epoch, and within an epoch from OWNED over DRAINING to UNOWNED under one owner. |
| StoreRuns.OneOwnerPerEpoch | internal/sequence/data/ownership_data.go:369-404 | A slot and a positive epoch name at most one owner in any history. |
| StoreRuns.BoundaryNeverMoves | internal/sequence/data/handoff_data.go:354-396 | While a slot drains at one epoch its boundary stays as first written, through renewals, retargets and conversion to RELEASE. |
| StoreRuns.LeavesDrainingFenced | internal/sequence/data/ownership_data.go:360-368 | A slot leaves DRAINING only in a transaction at or after its boundary, or with an acknowledgement on record. |
| StoreRuns.DrainedWasAcked | internal/sequence/data/handoff_data.go:366-378 | An acknowledgement on record came from the source itself, for that slot and epoch. |
| StoreRuns.RangesTileInEpochOrder | internal/sequence/data/sequence_data.go:353-387 | Whatever callers were told, the ranges cut for a key tile 1..watermark in commit order, with epochs that never fall and one instance per epoch. |
| StoreRuns.HigherEpochsCutHigher | internal/sequence/data/sequence_data.go:167-208 | Every ID cut under a higher epoch exceeds every ID cut under a lower one, with no clock assumption. |
| RangeOrder.GrantCuts | internal/sequence/data/sequence_data.go:353-387 | Only a reservation moves a watermark, by exactly the range it hands out. |
| RangeOrder.GrantHeld | internal/sequence/data/sequence_data.go:167-208 | A range is cut only for the instance and epoch that own the key's slot at that moment. |
| OrderRuns.RangesTile | internal/sequence/biz/authority.go:85-94 | Every range a key state ever held was cut for its own instance at its own gate's epoch. |
| Budgets.BudgetsHold | internal/sequence/data/handoff_data.go:340-365 | With constant limits, DRAINING and TRANSFERRED handoffs never exceed MaxInflight in total or MaxPerSource per source, in any history. |
| Budgets.ApplyKeepsTargets | internal/sequence/data/handoff_data.go:340-365 | Executing commands never pushes a target past MaxPerTarget; one already past it gains nothing. |
| Retargets.RecoveryLeaves | internal/sequence/data/handoff_data.go:538-559 | What a committed recovery leaves counted against a target: exactly what it had, less the draining transfers recovery took up, plus those it sent there. |
| Retargets.SharesFitExactly | internal/sequence/data/handoff_data.go:538-559 | A target stays within MaxPerTarget throughout a history if and only if every recovery leaves it so by that count. |
| CrowdedTarget.RecoveryPassesTheShare | internal/sequence/data/handoff_data.go:538-559 | A reachable store and a recovery that takes a target from one handoff to two, past a share of one. |
| AuthorityTables.AuthorityStore.RegisterInstance | internal/sequence/data/ownership_data.go:170-215 | Inserts a fresh lease at revision 0 or leaves the existing one, and refuses another node or a retired lease. |
| TransactionEffects.RegisterExactly | internal/sequence/data/ownership_data.go:170-215 | A lease row is created once, ACTIVE at revision 0 and granted now, and no second registration touches it. |
| AuthorityTables.AuthorityStore.RenewInstance | internal/sequence/data/ownership_data.go:217-248 | Moves the grant time exactly when the lease is ACTIVE at the presented revision; otherwise changes nothing. |
| TransactionEffects.RenewExactly | internal/sequence/data/ownership_data.go:217-248 | A renewal commits if and only if the row is ACTIVE at the presented revision, and moves its grant time alone. |
| AuthorityTables.AuthorityStore.RetireInstance | internal/sequence/data/ownership_data.go:283-293 | Retires an ACTIVE lease and moves its revision; otherwise changes nothing. |
| TransactionEffects.RetireExactly | internal/sequence/data/ownership_data.go:283-293 | Retirement never fails, leaves the row RETIRED, and moves its revision only from ACTIVE. |
| AuthorityTables.AuthorityStore.ClaimSlots | internal/sequence/data/ownership_data.go:295-415 | The claim loop grants exactly the grantable slots, one epoch on, cancels their live intents, and moves the revision of the claimant and of every former owner together. |
| TransactionEffects.ClaimExactly | internal/sequence/data/ownership_data.go:345-415 | A committed claim, from the tables alone: a requested slot is granted if and only if it is UNOWNED, or OWNED by another whose grant is a quiet window old, or DRAINING under a RELEASE acknowledged or past its boundary; it is then the claimant's one epoch on with no live intent, and the revisions of the claimant and of former owners move by one. |
| TransactionEffects.ClaimRefused | internal/sequence/data/ownership_data.go:299-353 | When a claim is refused, and with which error. |
| AuthorityTables.AuthorityStore.PlanHandoffs | internal/sequence/data/handoff_data.go:165-240 | Records the plannable intents of a batch under a held tenure and within MaxPlanned. |
| TransactionEffects.PlanExactly | internal/sequence/data/handoff_data.go:165-240 | Each slot gets the batch's last plan that still holds (an idle slot OWNED by the source at its epoch, both ends current), unless that would leave too many pending; no other row moves. |
| TransactionEffects.PlanRefused | internal/sequence/data/handoff_data.go:165-200 | A plan is refused exactly for its length, a lost tenure, or an ill-formed intent. |
| AuthorityTables.AuthorityStore.ApplyHandoffs | internal/sequence/data/handoff_data.go:242-437 | The counting and command loops leave exactly the tables of the transaction and return its refusal; what those tables are is stated by the CommandEffects rows. |
| CommandEffects.AcceptedExactly | internal/sequence/data/handoff_data.go:242-303 | A batch is refused, always with the same error, exactly when it is too long or anonymous, names a slot twice, or addresses an intent on record with an unknown command. |
| CommandEffects.PrepareEffect | internal/sequence/data/handoff_data.go:328-339 | In an accepted batch PREPARE makes the intent on record ready (PLANNED becomes READY, DRAINING stays) exactly when it is PLANNED or DRAINING and comes from its target, current and at its current revision; otherwise row and intent stay. |
| CommandEffects.BeginEffect | internal/sequence/data/handoff_data.go:340-365 | BEGIN turns a READY intent and its row DRAINING, with its boundary a quiet window after the later of now and the source's last grant, exactly when it comes from either end, the target of a transfer is ready and current, and the drains in flight or begun earlier in the batch leave room. |
| CommandEffects.WithdrawEffect | internal/sequence/data/handoff_data.go:309-365 | WITHDRAW starts the drain of a RELEASE exactly when its source owns the slot at the epoch named, no live intent stands, and the budgets leave room. |
| CommandEffects.AckDrainEffect | internal/sequence/data/handoff_data.go:366-371 | ACK_DRAIN puts the acknowledgement on record, all else equal, exactly when the intent on record drains and the sender is its source. |
| CommandEffects.TransferEffect | internal/sequence/data/handoff_data.go:372-396 | Once the drain is acknowledged or past its boundary, TRANSFER gives the slot to a ready and current target one epoch on, or lets the source of a RELEASE free it at its epoch; otherwise nothing moves. |
| CommandEffects.AckActiveEffect | internal/sequence/data/handoff_data.go:397-406 | ACK_ACTIVE completes the intent exactly when it is TRANSFERRED and the sender is its target, current and at its current revision. |
| CommandEffects.NamedOnly | internal/sequence/data/handoff_data.go:298-321 | No slot moves that no command names. |
| CommandEffects.RevisionsFollowRows | internal/sequence/data/handoff_data.go:413-434 | An accepted batch moves a revision, by one, exactly if its instance owned or comes to own a slot whose row changed, and touches no other table. |
| AuthorityTables.AuthorityStore.RecoverHandoffs | internal/sequence/data/handoff_data.go:439-580 | The recovery loop leaves exactly the tables of the transaction, or returns its refusal; `TransactionEffects.RecoverExactly` says what they are. |
| TransactionEffects.RecoverExactly | internal/sequence/data/handoff_data.go:502-580 | Each candidate, from its row and intent alone: PLANNED and READY are cancelled; a RELEASE past its boundary is completed and its slot freed; the drain of a transfer goes, unready, unacknowledged and under a new ID, to the first other current instance, or becomes a RELEASE; the rest stays; a revision moves exactly for a freed slot's owner. |
| TransactionEffects.RecoverRefused | internal/sequence/data/handoff_data.go:439-470 | Recovery with candidates commits exactly under the running tenure of the token presented. |
| AuthorityTables.AuthorityStore.CollectInstances | internal/sequence/data/handoff_data.go:582-609 | Deletes exactly the listed leases that are quiet, not live, own nothing and take part in no live handoff. |
| TransactionEffects.CollectExactly | internal/sequence/data/handoff_data.go:582-609 | The same, with each condition spelled out over the tables, and that every other lease stays. |
| AuthorityTables.AuthorityStore.ReserveRanges | internal/sequence/data/sequence_data.go:60-119 | The validation, authority and watermark loops compute exactly the transaction: its ranges and watermarks, or its refusal. |
| TransactionEffects.ReserveRefused | internal/sequence/data/sequence_data.go:121-208 | A reservation commits if and only if its arguments are valid, its lease row is ACTIVE at the presented revision, now is before grant + lease, every slot is OWNED by the instance at the presented epoch and no watermark overflows; which error it gives otherwise, in that order. |
| TransactionEffects.ReserveExactly | internal/sequence/data/sequence_data.go:353-387 | A committed one hands each key, in request order, the range right after its watermark, moves each watermark to the end of its range, and nothing else. |
| StoreRuns.RangesCutWithinLease | internal/sequence/data/sequence_data.go:178-180 | In every history: whoever cuts a range registered or renewed less than the lease duration before, on the storage clock, and has stayed ACTIVE since. |
| AuthorityTables.AuthorityStore.AcquireCoordinator | internal/sequence/data/placement_data.go:146-187 | Leaves the tenure and returns the token or error of the transaction, whose history is given by the Coordinator rows. |
| Coordinator.AcquiredExactly | internal/sequence/data/placement_data.go:146-187 | In every history an acquisition during another's tenure changes nothing and returns a token not held; any other returns a held one, sets the expiry to now + duration, and moves the epoch by one unless the caller's own tenure was running. |
| Coordinator.TenureMoves | internal/sequence/data/placement_data.go:146-187 | Nothing but an acquisition moves the tenure, and nothing moves its holder or epoch while it is running. |
| Coordinator.TenureLasts | internal/sequence/data/placement_data.go:146-187 | Once acquired, an epoch ends no earlier than its holder's last acquisition promised. |
| AuthorityTables.AuthorityStore.MaterialiseRoute | internal/sequence/data/placement_data.go:224-263 | Publishes the encoded view under a held tenure, and writes nothing when it is already the published one. |
| Coordinator.EpochNamesOneHolder | internal/sequence/data/placement_data.go:146-187 | Two acquisitions under one coordinator epoch are one instance's, and epochs never fall. |
| Coordinator.StaleWritesFail | internal/sequence/data/placement_data.go:191-220 | Once a higher epoch has been acquired, no write presenting a lower one changes anything. |
| Coordinator.WritesAreHeld | internal/sequence/data/placement_data.go:191-220 | A guarded write that changes anything presents the tenure in force, unexpired at that moment. |
| Coordinator.VersionCountsChanges | internal/sequence/data/placement_data.go:224-263 | The version grows by exactly one when, and only when, the published directory changes. |
| Coordinator.VersionNamesDirectory | internal/sequence/data/placement_data.go:224-263 | Versions never fall, and equal versions are equal directories. |
| CursorRuns.ServedInCursorOrder | internal/sequence/biz/allocation.go:106-156 | Under every interleaving of lock-free adds, CAS blocks, slow-path allocation and activation, blocks served from a key state rise in the order in which the cursor advanced. |
| CursorRuns.ServedOnce | internal/sequence/biz/allocation.go:1134-1164 | No ID of a key state belongs to two served advances. |
| CursorRuns.ServesItsOwn | internal/sequence/biz/allocation.go:106-156 | A request serves an advance it made itself and that nobody served before. |
| CursorRuns.ValidatedUnderItsGeneration | internal/sequence/biz/allocation.go:106-156 | A candidate passes validation only under the generation it was taken in, and then lies in that generation's range. |
| CursorRuns.TakingBackIsDead | internal/sequence/biz/allocation.go:198-239 | The slow path's branch that would take a carried candidate back is never taken. |
| CursorRewinds.CursorCanRewind | internal/sequence/biz/allocation.go:558-578 | A run in which `next` moves backwards, over an ID it had moved over before. |
| CursorRuns.SingleFlight | internal/sequence/biz/allocation.go:527-556 | A fetch in flight and a standby never coexist, at most one request is fetching and its fetch is the recorded one, and the standby lies wholly above everything activated before. |
| CursorRuns.ClosedOnce | internal/sequence/biz/allocation.go:527-556 | Every completion is of the recorded fetch, which it closes for the first and only time. |
| CursorRuns.FetchSizes | internal/sequence/biz/allocation.go:493-525 | On foreground, background, retry and batch paths the size asked for covers the caller, is at least the least range, and exceeds the greatest only by the active range or the caller's own count. |
| CursorSafety.NextStepBounds | internal/sequence/biz/allocation.go:493-525 | The adaptive step stays between the floor and the greater of ceiling and active size, whatever the measured pace. |
| CursorSafety.HotGrows | internal/sequence/biz/allocation.go:511-515 | A fast key's step doubles while that stays clear of the ceiling and else goes to the ceiling; it shrinks if and only if the active range is larger than the ceiling. |
| CursorSafety.ColdShrinks | internal/sequence/biz/allocation.go:516-521 | A slow key's step never grows: it halves, rounding down, but not below the least. |
| CursorSafety.SteadyKeeps | internal/sequence/biz/allocation.go:493-501 | An unmeasured or steady pace keeps the step in force. |
| CursorSafety.FetchesStep | internal/sequence/biz/allocation.go:493-525 | Every fetch asks for its step or for what its caller needs, whichever is more. |
| OrderRuns.RetiredIsDead | internal/sequence/biz/allocation.go:73-104 | A key state some request holds is never evicted, a retired one takes no further step, and acquiring yields a usable one. |
| OrderRuns.ReplacementIsAbove | internal/sequence/biz/allocator.go:710-766 | A gate has at most one usable state per key, and all ranges of a later one lie above all of an earlier one's. |
| OrderRuns.AnswersAreUsable | internal/sequence/biz/allocation.go:683-694 | The range a reservation returns always passes the fetching state's validation. |
| Placement.SlotQuotas | internal/sequence/biz/placement.go:325-337 | Every member's quota is the slot space divided evenly, the remainder going to the first members in order. |
| Placement.QuotasCover | internal/sequence/biz/placement.go:325-337 | The quotas of any number of members add up to the slot space exactly. |
| Placement.QuotasEven | internal/sequence/biz/placement.go:325-337 | They differ by at most one, the larger ones first. |
| Placement.SomeoneBelow | internal/sequence/biz/placement.go:277-323 | Pigeonhole: while a slot is free, some live member is strictly below its quota. |
| Placement.PickIsBelow | internal/sequence/biz/placement.go:277-323 | So the least-loaded fallback is dead: every free slot goes to the first member strictly below quota. |
| Placement.PlanMeans | internal/sequence/biz/placement.go:277-323 | The recovery plan leaves every healthy or still-draining slot in place, gives every other slot to a live member, and leaves each member at most at the greater of its initial count and its quota. |
| Placement.PlanForgetsOrder | internal/sequence/biz/placement.go:277-323 | The plan does not depend on the order of the node list. |
| Placement.PlanTargets | internal/sequence/biz/placement.go:277-323 | The two-pass loop computes that plan, and refuses exactly the incomplete views. |
| Migrations.PlanMigrations | internal/sequence/biz/placement.go:643-731 | Every planned move takes an idle owned slot from a member above quota to one below; a settled view yields none; and a plan short of the limit leaves the view settled. |
| Migrations.ProjectedCounts | internal/sequence/biz/placement.go:643-731 | The projected load that planning goes by is, for handoffs that agree with the view, the number of slots the instance owns once they are all through. |
| Migrations.PlayersAre | internal/sequence/biz/placement.go:643-731 | The members that take part are those that own some slot or have been stable long enough. |
| Migrations.QuotasRespected | internal/sequence/biz/placement.go:643-731 | After each move its source is still at or above quota and its target at or below. |
| Migrations.TotalConserved | internal/sequence/biz/placement.go:643-731 | The members' projected total is the same after every prefix of the plan. |
| Migrations.SlotsPlannedOnce | internal/sequence/biz/placement.go:643-731 | No slot is planned twice and none that was already moving. |
| Migrations.Replan | internal/sequence/biz/placement.go:643-731 | Fixed point: if fewer than `limit` moves come back, planning again with them pending yields nothing. |
| Route.ValidateOwnershipSegments | internal/sequence/biz/placement.go:82-106 | Accepts exactly the views that cover the slot space in order with consistent states. |
| Route.CanonicalEncoding | internal/sequence/biz/placement.go:194-222 | Two views encode alike exactly when they agree, slot by slot, on node, instance and epoch, under one layout. |
| Route.CanonicalUnique | internal/sequence/biz/placement.go:226-230 | Two maximal run lists that say the same of every slot are the same list. |
| Route.EncodeOwnershipSegments | internal/sequence/biz/placement.go:194-222 | Encoding a complete view yields its own slot-by-slot story in as few runs as can tell it; any other view is refused. |
| Route.DecodeRoute | internal/sequence/biz/placement.go:233-260 | Decoding succeeds exactly on complete coverage with a positive version and layout, and loses nothing. |
| Route.SegmentFor | internal/sequence/biz/placement.go:173-185 | Binary search finds the run around a slot if there is one, and reports none only if there is none. |
| Route.CompileSegments | pkg/sequence/router.go:334-395 | The client accepts exactly complete directories, and its tables then give every slot's node and epoch. |
| Route.PublishAndCompile | pkg/sequence/router.go:308-324 | From ownership view through encoding and decoding, the server's lookup and the client's tables return each slot's original owner and epoch. |
| KeyHash.SlotForKey | pkg/sequence/router.go:113-119 | The table-driven byte loop equals the bit-at-a-time reflected CRC-32 of section 8 of RFC 1952 for every key, reduced to the 16384 slots. |
| KeyHash.CheckValue | pkg/sequence/router.go:50 | That CRC-32 has the published check value: 0xCBF43926 for 123456789, whose slot is then 0x3926. |
| KeyHash.TableEntries | pkg/sequence/router.go:50 | The table's entries at 0, 1, 0x80 and 0xFF are those of the IEEE table. |
| KeyHash.Taps | pkg/sequence/router.go:50 | The feedback word is the IEEE 802.3 generator, coefficient by coefficient. |
| KeyHash.TableStep | pkg/sequence/router.go:113-119 | One table step is eight steps of the bitwise register. |
| ClientBatch.NormalizeKeyRequests | pkg/sequence/client.go:156-199 | Accepts exactly the batches of distinct keys of 1 to 256 bytes, bounded counts and a bounded total, in order, an absent count standing for one. |
| ClientBatch.GroupKeyRequests | pkg/sequence/client.go:207-236 | Groups the pending keys by owner, in node order, or fails if some key's slot has none. |
| ClientBatch.PartitionExact | pkg/sequence/client.go:207-236 | Every pending key is in exactly one owner's group. |
| ClientBatch.DecodeGroupResponse | pkg/sequence/client.go:318-343 | A response is accepted exactly when it answers each key of its group in order with the requested count. |
| ClientBatch.NeverSentAgain | pkg/sequence/client.go:87-154 | A key accepted in one attempt is never sent in a later one. |
| ClientBatch.SendsWhatIsLeft | pkg/sequence/client.go:107-117 | A round sends nothing or exactly what no earlier round has answered, keeps only what it sent, and comes to no error only by keeping it all. |
| ClientBatch.FetchNextBatch | pkg/sequence/client.go:87-154 | For every schedule of replies, failed refreshes and cancellations the rounds are exactly those prescribed, up to the first that succeeds or ends the call and no more than the budget: a refresh when the round before asked for one, otherwise an attempt at exactly what is left, which comes to a final error exactly when some reply is final, to a refresh when an owner is missing or some server asks for one, to no error when all are honoured, and else to what the last failing server asks. The call succeeds exactly when its last round does, with result i for request i and exactly the requested count. |
| ClientBatch.FavourableRoundSucceeds | pkg/sequence/router.go:577-626 | It does not give up early: if no earlier round ended the call, and a round within the budget is not cancelled, has its route, and finds every pending owner known and every pending group honoured, the call succeeds. |
| ClientBatch.RetryDelay | pkg/sequence/router.go:563-575 | The delay is half the capped exponential backoff plus a random share of the other half, and never under the minimum asked for. |

## Findings

- The per-target handoff budget does not survive recovery: its retarget (internal/sequence/data/handoff_data.go:538-559)
  does not look at MaxPerTarget. `CrowdedTarget.RecoveryPassesTheShare` reaches such a store;
  `Retargets.SharesFitExactly` says when the budget holds: exactly if each recovery leaves the target within its share,
  a count over the rows and live nodes it is about to act on. No other transaction takes a target past its share.
- A fast key's range can shrink: the step goes to the ceiling when it is at least half of it, also when the active
  range, fetched for a large batch, is above the ceiling (`CursorSafety.HotGrows` has the exact condition).
- The raw cursor can move backwards over an ID it had moved over before (`CursorRewinds.CursorCanRewind`); served IDs
  rise all the same.
- The quiet window's floor is not tight. The exact threshold is local deadline + longest pause + drift + jump
  (`Threshold.ExactThreshold`); the floor lies above it by twice the clock margin. Below the threshold a request that
  arms its guard in the last instant of the deadline, pauses as long as it may and reads `draining` just before the
  takeover reaches its process serves an ID its instance no longer holds.
- Dead branches: taking back a carried candidate in the slow path, the least-loaded fallback of the recovery plan, and
  recovery's mismatch branches for DRAINING and TRANSFERRED handoffs.
- On shutdown the code issues WITHDRAW first and waits for the gate to drain afterwards
  (internal/sequence/biz/authority.go:490-552), where section 6.3 of docs/sequence-ha-architecture.md has the drain come
  first. The model follows the code.

## Left out

- StoreRuns.RevisionFidelity: speaks of a lease row that persists, because a bare sequence of transactions may register
  a collected identity again; that processes never do so for an identity that has owned a slot is
  `RevisionRuns.RevisionNamesView`.
- CursorRuns.FetchSizes: the estimated rate enters as one of four paces; estimating it is not modelled.
- Route.DecodeRoute: the payload's serialised form is taken to round-trip.
- TransactionEffects.ReserveRefused: a key is the sequence of its bytes, and one of non-ASCII white space only is taken
  not to be blank.
- HandoffIdentity.RecoveryCancelsOnlyUndrained: generated IDs are taken to be new, as UUIDs are.
- SQL, GORM and dialect differences: row locks become atomicity, and JSON round-trips.
- A registration that commits after its process has applied its first snapshot and its lease has since been collected:
  it would need one statement to stay in flight for longer than the quiet window.
- gRPC, interceptors, metadata, error reasons and balancer connectivity: only error or no error is kept.
- Metrics, readiness, configuration loading, tickers, memory limits and logging.
- Rate, latency and jitter estimation: the chosen pace and jitter are inputs.
- The live-node and ownership-view queries: their results are inputs that meet ValidateOwnershipSegments and have
  distinct IDs.
- A gate object is named by its slot and epoch; two gate objects of one process for one slot and epoch do not occur.
- The heap objects behind a key state (aliasing of the recorder ring, timers): their effects are steps of the cursor.
- tools/service-release-check: a command wrapper.
