# Metered traffic, end to end: a verified model

A traffic panel sells quota; Agents on forwarding nodes spend it. This project models the accounting between them and
proves what it is for: no byte is admitted that is not paid for, no crash loses or doubles a bill, no replayed or lost
message moves a counter twice, and every state that a crash can leave is one from which the program starts again.

The parts, and the modules that hold them:

- **Agent credit ledger.** `AgentTypes` and `AgentState` define the durable state, the validator, the effect of every
  event, the check made on restart and the invariant that makes it inductive. `AgentSystem` adds the memory side (live
  windows), the batch in flight and bookkeeping that only the statements use (bytes admitted, records made). `AgentRuns`
  is the state machine of every interleaving of the fast path, the writer, crashes and restarts. `AgentPlanner` and
  `AgentBatches` hold the batch planner and its refinement of the validator, `AgentSizing` the exact size of what it
  grants, `AgentRecovery` the price of a crash, `AgentRestore` what the check on a restart is worth, `AgentFastPath` and
  `AgentOrder` who may spend what and in which order, `AgentReach` the refinement of the running store to the state machine,
  `AgentSettling` and `AgentOutcomes` what the writer's batches amount to field by field, `AgentSupply` and `AgentHousing`
  the question whether credit can be stranded, and `AgentExamples` small runs that show where general statements fail. `AgentWriter`, `AgentRestart` and
  `AgentStore` are the program itself, with its loops and its mutable store, proved against those specifications.
- **Write-ahead log.** `Bytes`, `WalFormat`, `WalReading`, `WalFiles` and `WalJournal`: framing, torn tails, replay of any
  bytes, append with short writes, checkpoint and rotation, with a crash at any point. Serialisation and checksum are
  parameters of every statement.
- **Panel quota ledger.** `Rates`, `PanelBooks`, `PanelOps`, `PanelSettlement` and `PanelService`: rational multipliers,
  reservations, settlement as a function of a set of records, refunds on retirement.
- **Both together.** `EndToEnd`: any number of Agents and a panel over a network that loses, delays, reorders and repeats.
  `Delivery` shows that true reports are accepted, and `EndToEndExample` that the quota bound is tight.
- **Wallet.** `WalletFunds`, `Wallet`, `Refunds` and `RefundDesk`: where money came from, where it goes back to, and how
  one refund moves money, quota and commission together.
- **Smaller machines.** `Rotation` and `Failover` (smooth weighted round robin), `Limits` (token bucket and slots),
  `Upgrade` (crash-safe binary upgrade), `DuplicateWindow` (bounded duplicate detection).

`Sums` holds sums over finite maps, independent of traversal order.

## Assumptions

They appear as `requires` clauses or as parts of the step relations.

- Time does not run backwards and is read once per planning step.
- Identifiers are fresh, and a lease identifier always names the same bytes, expiry and entitlement: `Terms` maps each
  identifier to the lease that it will ever name. For the statement about stranded credit a lease belongs to one rule,
  and in `EndToEnd` an Agent spends a lease under the rule that it was granted for.
- For the statement that a supplied charge is admitted: rules have different names, and a lease is named under the rule that
  it was granted for (`Tidy`); `AgentHousing.JobKeepsHoused` carries it through every job.
- No two Agents draw the same record identifier (`Apart`); only the corollaries of `Delivery.TrueReportSettles` need it.
- A configuration carries leases as they were granted and no enabled rule with a standby lease alone (`ConfigOk`), and
  every lease that it names, even under a disabled rule, is known already or becomes known (`Familiar`).
- An SQL transaction is one atomic step. A file rename happens or does not happen; appended bytes survive as a prefix.
- No torn log record contains, at an inner offset, the bytes of another intact record (`NoInteriorRecord`).
- Integers are unbounded, and the rate limiter computes over the reals.

## Findings

Some properties do not hold as a reader would first write them. Each is stated with the input that breaks it and with
the exact condition under which it does hold.

- *No stranded credit* fails for one pass when that pass closes an idle window that held the credit: the planner still
  counts the closing window against the lease (`AgentExamples.IdleCreditIsStranded`, a reachable state). It would also
  fail while TCP growth is paused if the rule held windows of the larger size, because the writer decides about a
  rebalance with the larger limit (`AgentExamples.PausedCreditIsStranded`). `AgentSupply.NoStrandedCredit` is the
  equivalence. The second case does not arise in the store, which is paused only at its start, when every window is
  closed: `Store.Consistent` carries `Tame`, and `AgentSupply.CreditIsSupplied` states the supply for such states.
- *The duplicate window answers like a set* fails for the one number that marks an empty slot
  (`DuplicateWindow.LargestNumberIsRefused`); `DuplicateWindow.AnswersLikeASet` is the equivalence.
- *What the log accepts restarts* fails: the validator lets a lease be stopped under an open window
  (`AgentExamples.ValidatorIsNotEnough`), lets a report take the last spool slot, and lets a configuration name a lease
  only under a disabled rule, so that the next configuration stops a lease that is not registered
  (`AgentExamples.DisabledLeaseBreaks`). `AgentState.StopRestarts`, `AgentState.ReportRestarts` and
  `AgentState.ConfigRestarts` are the equivalences; the planner's batches are proved to stay on the good side of the first
  two, and of the third for configurations that name known leases.
- *A refund never leaves more to spend* fails when it takes a quota to exactly zero, which reads as unlimited
  (`PanelOps.FullRefundLiftsTheQuota`); `PanelOps.RefundCurbs` is the equivalence.
- *Waiting lets a throttled request through* fails for requests above the burst; `Limits.WaitingHelps` is the equivalence,
  and every packet is below.

## Model

| member | source | states |
|---|---|---|
| AgentState.InvIsAccepted | internal/agent/durable_bounds.go:42-102 | a state the writer kept is always accepted on the next start: the invariant implies every check of the snapshot validator, although the validator holds a rule to the largest limit among its windows and the writer to the limit of the new one |
| AgentState.RuleBoundHolds | internal/agent/durable_bounds.go:76-100 | the separate cap on non-TCP windows is what makes the rule bound of the restart check hold once the last TCP window of a rule closes |
| AgentState.ReserveKeepsInv | internal/agent/credits.go:506-538 | an accepted reservation keeps lease budgets, the four responsibility caps, the two-window limit and the spool bound |
| AgentState.ProgressKeepsInv | internal/agent/credits.go:539-552 | settling or closing a window keeps the invariant: what leaves the liability enters the bill |
| AgentState.ChargeKeepsInv | internal/agent/state.go:503-524 | a direct charge that the log accepts keeps billed bytes plus open liability within the lease |
| AgentState.ConfigKeepsInv | internal/agent/state.go:481-502 | adopting a configuration, disabled and unfunded rules included, registers the leases of its enabled rules and stops the old ones without stopping a lease that still has a window |
| AgentState.AckKeepsInv | internal/agent/state.go:525-536 | dropping acknowledged records keeps pending bytes within spent bytes for every lease |
| AgentState.StopKeepsInv | internal/agent/state.go:537-543 | stopping a lease without open windows, or confirming the stop, keeps the invariant |
| AgentState.StopRestarts | internal/agent/state.go:445-451 | stopping a known lease is always accepted by the log, and restarts if and only if the lease has no open window |
| AgentState.ReportRestarts | internal/agent/credits.go:544-550 | a new progress report restarts if and only if it closes its window or a spool slot is spare |
| AgentState.ChargeIsExact | internal/agent/state.go:503-524 | a direct charge on a usable lease is accepted if and only if the state that it leaves would restart: no overspent lease or spool, and no byte refused that fits |
| AgentState.ReportIsDetermined | internal/agent/credits.go:539-552 | an accepted report is determined by its window and its bytes, but for its end within the window and the recovery mark, which needs a window closed in full |
| AgentState.ConfigRestarts | internal/agent/state.go:481-502 | a configuration that the log accepts restarts if and only if every lease that the one before it named is registered by then |
| AgentExamples.ValidatorIsNotEnough | internal/agent/state.go:445-451 | a reachable state and an accepted event whose result would not restart |
| AgentExamples.DisabledLeaseBreaks | internal/agent/state.go:481-502 | two configurations that the log accepts in turn, the first naming a lease only under a disabled rule, whose result would not restart |
| AgentState.EventKeepsInv | internal/agent/state.go:469-545 | every event that the log accepts and the planner was careful about keeps the durable invariant |
| AgentState.PruneKeepsInv | internal/agent/durable_bounds.go:14-40 | forgetting confirmed, expired and unreferenced leases keeps the invariant |
| AgentSystem.PostKeepsCore | internal/agent/credits.go:556-606 | every staged event keeps the whole ledger consistent: live use within windows, bill equal to the sum of all records ever made, admitted bytes covered by bill and meter, record identifiers never reused |
| AgentRuns.SpendCommutes | internal/agent/credits.go:410-484 | a fast-path debit commutes with any staged event, because a window that is about to close was frozen first |
| AgentRuns.SpendKeepsStaged | internal/agent/credits.go:79-202 | debits made while a batch is being logged do not invalidate the batch |
| AgentRuns.NextKeepsSafe | internal/agent/credits.go:556-632 | every step (debit, staging, applying, crash with any prefix on disk, restart, pruning, time) keeps the ledger consistent and the batch in flight acceptable |
| AgentRuns.RunIsSafe | internal/agent/credits.go:79-202 | the same for every reachable state of every run |
| AgentRuns.AdmissionIsCovered | internal/agent/credits.go:79-202 | over every run, crashes included: admitted bytes of a lease are at most billed plus unbilled live use, that is at most billed plus window liability, and that is at most the lease |
| AgentRuns.LeaseIsCovered | internal/agent/state.go:577-601 | the same chain of bounds in any consistent state |
| AgentPlanner.ProgressIsStaged | internal/agent/credits.go:410-484 | whatever the trigger, the order of the windows and the room left, the planned progress events are accepted one after the other |
| AgentPlanner.ForeseenIsHeld | internal/agent/credits.go:303-372 | the totals that the planner computes from the state before the batch and the staged events are the totals that the validator will find after them |
| AgentPlanner.GrantIsSized | internal/agent/credits.go:374-405 | a granted window respects every bound it was sized by and is at least as large as the request |
| AgentPlanner.PrimeSharesEvenly | internal/agent/credits.go:385-392 | primed windows never take a direction beyond its half of what is left of the lease, and the halves add up to the byte |
| AgentPlanner.GrantIsModest | internal/agent/credits.go:377-384 | a window is at most a quarter of its lease, rounded up, unless one request needs more |
| AgentPlanner.DecisionIsReady | internal/agent/credits.go:253-406 | a reservation decided against unapplied state is accepted by the validator after the whole batch |
| AgentSizing.CurrentIsFirst | internal/agent/credits.go:254-267 | a request is judged by the first configured rule with its name that is enabled, metered and forwards the same, and refused if there is none |
| AgentSizing.AvailableIsPayable | internal/agent/state.go:577-601 | a lease is available if and only if it is current, not stopped, unchanged, within the registry and the spool, and holds the bytes beside its liability; the two other refusals have exact conditions |
| AgentSizing.FundingIsFirst | internal/agent/credits.go:268-290 | the paying lease is the first that can pay for the request beside what the batch already took, else the primary one |
| AgentSizing.ReservedIsHeld | internal/agent/credits.go:274-279 | what the batch already took from a lease is what its new windows will hold of it |
| AgentSizing.GrantIsLargest | internal/agent/credits.go:374-397 | a granted window is the largest that fits: one more byte would break the window size, the quarter of the lease, the rule limit, the account limit, the free bytes of the lease or the primed half |
| AgentSizing.DecisionIsDue | internal/agent/credits.go:253-406 | the whole decision: granted if and only if the paying lease is usable, registry and spool have room for the batch, the direction has fewer than two windows and a window that covers the request fits |
| AgentPlanner.BatchOutcome | internal/agent/credits.go:303-384 | what a batch of progress and reservations can do to a lease's commitment, the spool and the registry |
| AgentPlanner.ReservationsAreStaged | internal/agent/credits.go:681-690 | any number of requests served in order, each seeing what the earlier ones staged, yields a batch that applies event by event |
| AgentBatches.CreditBatchIsStaged | internal/agent/credits.go:634-697 | a credit batch (progress, then reservations) never fails validation after it was logged |
| AgentBatches.ConfigBatchIsStaged | internal/agent/state.go:306-322 | settling and closing what a new configuration revokes, then adopting it, disabled and unfunded rules included, never fails after it was logged |
| AgentBatches.RetireBatchIsStaged | internal/agent/state.go:306-322 | settling and closing a lease's windows, then stopping it, never fails after it was logged |
| AgentBatches.SettlementOutcome | internal/agent/credits.go:453-482 | after a settlement nothing that the trigger closes is open; what is open was open before, on the same lease, and the registry is unchanged |
| AgentBatches.ConfigRevokes | internal/agent/credits.go:418-443 | a new configuration leaves a window open only if its lease still serves a rule whose forwarding did not change |
| AgentBatches.SettledIsCurrent | internal/agent/credits.go:461-466 | after any settlement no open window is used up, expired, idle under a TCP rule, or named by the trigger |
| AgentBatches.PrefixRestarts | internal/agent/wal.go:91-152 | every prefix of a staged batch left by a torn write passes the restart check |
| AgentRecovery.RecoveryRecordIs | internal/agent/credits.go:779-790 | the record of a recovered window bills its whole rest in its direction, up to the restart or its end, and is marked as a recovery |
| AgentRecovery.RecoverySettles | internal/agent/credits.go:768-795 | recovery never fails, closes every window, and bills each lease exactly its open liability |
| AgentRecovery.CrashNeverUnderbills | internal/agent/credits.go:768-795 | after a crash with any prefix of the batch on disk and the recovery that follows, no admitted byte is unbilled and no lease is overspent |
| AgentRecovery.RecoveryBills | internal/agent/credits.go:768-795 | the records that recovery makes bill every rule and every owner exactly what their open windows held, over all their leases |
| AgentRecovery.SpareIsBounded | internal/agent/durable_bounds.go:76-100 | what the open windows of a rule or an owner hold is what was spent from them and a rest within their cap |
| AgentRecovery.RecoveryExcess | internal/agent/credits.go:768-795 | after a crash with any prefix of the batch on disk, the records of recovery bill a rule or an owner at least what was really spent from its windows and at most 4 MiB per rule, 8 MiB per owner, more |
| AgentRestore.SnapshotIsEnough | internal/agent/durable_bounds.go:42-102 | whatever passes the check on a restart, written by this writer or not, can be recovered: every event is accepted, every window closed, no lease overspent, and the result satisfies the invariant |
| AgentRestore.SnapshotMeans | internal/agent/durable_bounds.go:42-81 | what the check demands of every lease, pending record and window, field by field |
| AgentRestore.HeldMeans | internal/agent/durable_bounds.go:84-95 | the totals are the unconfirmed bytes of the windows of a lease, a rule, an owner or a direction |
| AgentRestore.TwoWindows | internal/agent/durable_bounds.go:91-94 | in every consistent state a rule has at most two open windows in each direction |
| AgentRestore.SnapshotIsBounded | internal/agent/durable_bounds.go:74-101 | the check bounds what recovery may bill: 8 MiB per owner, 4 MiB per rule or 1 MiB without TCP windows, and two windows per direction |
| AgentRecovery.StoppedIsFinal | internal/agent/state.go:503-510 | once a lease is stopped or forgotten no step of any kind moves what was billed or admitted on it |
| AgentReach.BatchReaches | internal/agent/credits.go:608-632 | logging and applying a staged batch is a run of the state machine |
| AgentReach.SpendingReaches | internal/agent/credits.go:147-170 | a charge served from several windows is a run of single debits |
| AgentReach.ReachesSafe | internal/agent/credits.go:608-632 | whatever is reached from a safe system is safe |
| AgentFastPath.DrainStep | internal/agent/credits.go:147-170 | taking from the next window keeps the drain order: earlier windows are empty before later ones are touched |
| AgentFastPath.VerdictMeans | internal/agent/credits.go:79-153 | a charge is admitted if and only if the rule is leased and current and its own open windows in that direction on unexpired leases hold it; the four refusals have exact conditions |
| AgentFastPath.DrainMeans | internal/agent/credits.go:147-170 | a charge takes exactly its bytes from the rule's own open windows in its direction, the first in the list first, and leaves every other window as it was |
| AgentFastPath.AimMeans | internal/agent/credits.go:111-165 | the size asked for is the least that covers recent demand, the open windows and four times a window used up within a tenth of a second, between 256 KiB and 2 MiB |
| AgentOrder.BatchKeepsAged | internal/agent/credits.go:556-606 | windows stay listed by age through every batch |
| AgentOrder.OldestServesFirst | internal/agent/credits.go:122-148 | a charge touches a window only when every older window of the rule in that direction is used up |
| AgentWriter.SumLiability | internal/agent/credits.go:66-74 | the loop over all windows computes the liability of a lease |
| AgentWriter.TallyWindows | internal/agent/credits.go:303-322 | one pass computes the rule, account, direction and count totals |
| AgentWriter.TallyStaged | internal/agent/credits.go:323-372 | adjusting the totals event by event gives the totals after the staged batch |
| AgentWriter.ValidateReserve | internal/agent/credits.go:506-538 | the reservation test as it runs decides the reservation condition |
| AgentWriter.ValidateCharge | internal/agent/state.go:503-522 | the test on a direct charge decides its condition, including an unknown lease carried by the event |
| AgentWriter.ValidateEvent | internal/agent/state.go:415-465 | the validator decides exactly the accepted events |
| AgentWriter.DropAcknowledged | internal/agent/state.go:525-536 | the filtering loop keeps exactly the unacknowledged records, in order |
| AgentWriter.StopInactive | internal/agent/state.go:492-501 | the loop over the old rules stops exactly the leases that are no longer active and never undoes a confirmed stop |
| AgentWriter.ApplyTo | internal/agent/state.go:469-545 | the step-by-step effect of an event is the specified one |
| AgentWriter.CheckAvailable | internal/agent/state.go:577-601 | the availability test, with its order of refusals |
| AgentWriter.ChooseFunding | internal/agent/credits.go:268-289 | the first lease of the rule that can fund the request together with what is already staged, or the primary |
| AgentWriter.ReserveCredit | internal/agent/credits.go:253-406 | the planner as it runs makes the specified decision |
| AgentRestart.OneMoreRecord | internal/agent/durable_bounds.go:62-73 | testing one record against running totals is the same as testing all records together |
| AgentRestart.CheckPending | internal/agent/durable_bounds.go:61-73 | one pass decides that pending records are valid, distinct and within what their leases have spent |
| AgentRestart.OneMoreAccepted | internal/agent/durable_bounds.go:76-95 | testing one window against running totals is the same as testing all windows together |
| AgentRestart.CheckWindows | internal/agent/durable_bounds.go:74-95 | one pass with early rejection decides the bounds on all windows, in any order of traversal |
| AgentRestart.ValidateSnapshot | internal/agent/durable_bounds.go:42-102 | the restart check as it runs decides the snapshot condition |
| AgentRestart.PruneLeaseHistory | internal/agent/durable_bounds.go:14-40 | the pruning loop forgets exactly the prunable leases and counts them |
| AgentStore.Store.TryCreditCharge | internal/agent/credits.go:79-202 | the fast path admits a charge exactly when the rule's own windows in that direction hold it, takes exactly its bytes from them, oldest first, touches nothing otherwise, asks for more exactly when the direction runs low and no request is under way, and is a run of debits of the state machine |
| AgentStore.RefusalIsHeard | internal/agent/credits.go:174-200 | no charge of up to 256 KiB is refused in silence: a request that covers it is under way afterwards |
| AgentStore.Store.ApplyEvent | internal/agent/credits.go:556-606 | validates and applies one event to the durable state, the live credits and the publication order |
| AgentStore.Store.Commit | internal/agent/credits.go:608-632 | applies a logged batch in order and fails for good exactly when some event does not validate in its turn |
| AgentStore.Store.CreditProgress | internal/agent/credits.go:410-484 | freezes in place what the trigger closes and returns the planned progress events |
| AgentStore.Store.Settle | internal/agent/credits.go:649-660 | a flush or a close never fails; it closes exactly the windows that are meant, used up, expired or idle, leaves the others as they were, and accounts for every byte |
| AgentStore.Store.SetConfig | internal/agent/state.go:555-557 | a configuration is adopted exactly when it is valid; afterwards exactly the windows stay open whose lease still serves a rule with unchanged forwarding, the leases of enabled rules are registered, and exactly the leases that are no longer used are stopped |
| AgentStore.Store.Resume | internal/agent/client.go:157-160 | growth resumes without touching the ledger, and the store stays consistent |
| AgentStore.Store.Retire | internal/agent/state.go:700-702 | a known lease is stopped with all its windows closed and settled, every other window that still serves stays open with the same bytes spent, and no other lease is stopped |
| AgentStore.Store.Confirm | internal/agent/state.go:563-565 | exactly the records that were not acknowledged remain, in their order, and nothing else moves |
| AgentStore.Store.ConfirmRetired | internal/agent/state.go:720-722 | a stop is confirmed exactly when the lease is stopped and has no pending record, and nothing else moves |
| AgentStore.Store.RebalanceCredits | internal/agent/credits.go:699-766 | a request takes back its rule's credit exactly when it cannot be met otherwise |
| AgentStore.Store.PlanReservations | internal/agent/credits.go:681-690 | the loop over the requests plans the specified batch |
| AgentStore.Store.ProcessCreditBatch | internal/agent/credits.go:634-697 | one pass of the writer never fails and is a run of the state machine: every request rebalances in turn, then all is settled and planned, and the directions may ask again |
| AgentStore.Store.Process | internal/agent/state.go:245-322 | a store that has failed refuses everything; one that has not prunes if that is due and then does and answers exactly what the job asks for, as a run of the state machine, and never fails |
| AgentStore.Store.Forget | internal/agent/durable_bounds.go:14-40 | pruning forgets exactly the confirmed, expired and unreferenced leases, touches nothing else, and is a step of the state machine |
| AgentStore.RecoverCredits | internal/agent/credits.go:768-795 | the recovery loop validates every event it logs, closes every window and bills each lease its liability |
| AgentStore.Store.Reopen | internal/agent/state.go:94-128 | a store opened over a recovered state continues the run |
| AgentSettling.SettledIsSurviving | internal/agent/credits.go:453-482 | after a settlement exactly the windows that the trigger does not close are open, with the same bytes spent |
| AgentSettling.KeptServes | internal/agent/credits.go:418-436 | a lease keeps its windows under a new configuration if and only if an enabled, metered and funded rule names it and forwards as the rule of that name did |
| AgentSettling.SettledIff | internal/agent/credits.go:463-482 | a settlement closes the windows that its trigger is about and those that are used up, expired or idle under TCP, and no other; what stays open is the same window with the same bytes spent |
| AgentSettling.ReportedIff | internal/agent/credits.go:455-482 | a window gets an event if and only if it closes, or has something to report and fewer windows that stay open with something to report come before it than the spool has room for |
| AgentOutcomes.SettlementRecords | internal/agent/credits.go:476-495 | every new record reports one window: its bytes since the last report, in its direction, from its start to its last use |
| AgentOutcomes.SettlementAccounts | internal/agent/credits.go:453-482 | a settlement leaves configuration, registry and stops alone, only adds records, and bills what leaves the meter |
| AgentOutcomes.ConfigIsValidIff | internal/agent/state.go:426-444 | a configuration is accepted if and only if no funded rule names a known lease on other terms and the registry has room |
| AgentOutcomes.ConfigIsAdopted | internal/agent/state.go:481-502 | what adopting a configuration does to windows, registry and stops, both ways |
| AgentOutcomes.HaltIsHalted | internal/agent/state.go:537-543 | what stopping a lease does, and that a confirmed stop is not undone |
| AgentOutcomes.PruneIsPruned | internal/agent/durable_bounds.go:14-40 | what pruning forgets, both ways |
| AgentOutcomes.DropIsDropped | internal/agent/state.go:525-536 | what an acknowledgement drops, both ways and in order |
| AgentSettling.BatchIsTame | internal/agent/credits.go:374-384 | while TCP growth is paused no batch leaves a window above the small size, and no batch leaves a window frozen |
| AgentSupply.SettlementShrinks | internal/agent/credits.go:323-354 | a settlement only releases: every measure the planner foresees is at most what is held now |
| AgentSettling.RebalanceConserves | internal/agent/credits.go:453-482 | a settlement moves bytes from the meter to the bill and conserves their sum for every lease |
| AgentSupply.RebalanceMeans | internal/agent/credits.go:699-766 | a request takes back its rule's credit if and only if the rule has unspent windows, the direction holds too little, and a new window cannot be had: the direction is full, a limit is in the way or no lease can pay |
| AgentSupply.GrantedIffAffordable | internal/agent/credits.go:253-406 | the planner grants if and only if some lease of the rule has the bytes free of windows and every total has room |
| AgentSupply.DecisionIsGranted | internal/agent/credits.go:253-406 | if some lease of the rule can pay and there is room, the planner grants a window of at least the requested size |
| AgentSupply.SettledNeedsNothing | internal/agent/credits.go:699-766 | after a rebalance with a free slot for every window a flush has nothing left to settle |
| AgentSupply.ShortageFits | internal/agent/credits.go:699-766 | whenever the direction holds less than the request, the rule's limit has room after the rebalance decision, even though that decision ignores the pause of TCP growth, provided a paused rule has only small windows |
| AgentSupply.ShortageIsAffordable | internal/agent/credits.go:699-766 | whenever the direction holds less than the request and the rule's limit has room, the state that the plan is made against can pay for it, after rebalancing if it must |
| AgentSupply.NoStrandedCredit | internal/agent/credits.go:634-766 | for a timely request that fits a lease's unspent bytes, paused or not, with a spool slot for every window and one more: after one pass the direction holds enough, if and only if it held too little before and the rule's limit has room, or enough of it survives the pass, or some lease can pay for a new window while the closing ones still count |
| AgentSupply.CreditIsSupplied | internal/agent/credits.go:634-766 | in every state of the store, with no idle or expired window in the direction, one pass leaves enough on hand for a request that fits the unspent bytes of a lease, paused or not |
| AgentSupply.FreshCreditStays | internal/agent/credits.go:463-467 | with no idle or expired window in the direction a flush loses nothing that is on hand |
| AgentHousing.JobKeepsHoused | internal/agent/credits.go:253-267 | whatever the writer is asked to do, every open window stays with its rule, on one of its leases and with its owner |
| AgentHousing.PurseIsOnHand | internal/agent/credits.go:122-148 | all that the windows of a rule hold in one direction is the rule's to spend |
| AgentHousing.ChargeIsAdmitted | internal/agent/credits.go:634-766 | the pass serves the charge that asked for it: after one pass the fast path admits the request's bytes, paused or not |
| AgentExamples.SampleIsReached | internal/agent/credits.go:556-606 | configuring, reserving and waiting is a run from the initial state, so the examples are reachable |
| AgentExamples.IdleCreditIsStranded | internal/agent/credits.go:463-482 | a reachable state in which one pass closes an idle window and leaves nothing on hand although the byte is unspent |
| AgentExamples.PausedCreditIsStranded | internal/agent/credits.go:377-383 | a state with one large TCP window under a pause in which the writer sees no need to rebalance and the planner refuses |
| Bytes.GetPut | internal/agent/wal.go:49-66 | fixed-width big-endian numbers read back as written |
| Bytes.PutGet | internal/agent/wal.go:49-66 | bytes are the digits of the number that they spell |
| Bytes.FirstByteLeads | internal/agent/wal.go:49-66 | numbers are stored with the most significant byte first |
| WalFormat.WholeIsRead | internal/agent/wal.go:189-219 | a record that was written completely is read back, whatever follows it |
| WalFormat.CutIsTorn | internal/agent/wal.go:176-212 | a record cut anywhere is recognised as torn, never as damage |
| WalFormat.CutLogReplays | internal/agent/wal.go:154-242 | a log cut anywhere replays exactly its complete records, in order, and is trimmed to them, for any checksum function |
| WalReading.ReadingMeans | internal/agent/wal.go:176-223 | for any bytes: a record is read if and only if the writer's frame of it is there, and the rest is torn if and only if a cut append explains it; all else is corruption |
| WalReading.OpensIff | internal/agent/wal.go:154-242 | for any bytes: a log opens to a state if and only if it is a header that the checkpoint covers, records as they are written, and a rest that a cut append explains; the state is what the new records make of the checkpoint |
| WalReading.NothingCompleteIsCut | internal/agent/wal.go:201-223 | where a log is cut on opening there is no complete record, intact or damaged, and no later record behind |
| WalReading.OpenedIsSound | internal/agent/wal.go:91-152 | files that open, whoever wrote them, lead to a state that passes the check and can be recovered |
| WalFiles.StoredOpens | internal/agent/wal.go:91-152 | opening after a cut append yields everything synced plus a prefix of the batch, never an error, and the trimmed log stores exactly that |
| WalFiles.StagedIsLoggable | internal/agent/wal.go:290-338 | every batch that the writer stages meets what the log needs for this |
| WalFiles.NothingMissing | internal/agent/wal.go:68-90 | completing the registry from the configuration changes nothing in a state the writer stored |
| WalFiles.MissingIsAdded | internal/agent/wal.go:68-90 | completing the registry adds what the configuration names and changes no lease that is there |
| WalJournal.EncodeRecord | internal/agent/wal.go:49-66 | the buffer filled in place is the specified frame, and oversized events are refused |
| WalJournal.HasFollowingRecord | internal/agent/wal.go:245-272 | the scan finds an intact later record exactly when there is one |
| WalJournal.ReadNext | internal/agent/wal.go:176-223 | the reader computes the verdict that WalReading.ReadingMeans states for any bytes |
| WalJournal.ReplayLog | internal/agent/wal.go:154-242 | the replay loop computes the specified replay |
| WalJournal.OpenFiles | internal/agent/wal.go:91-152 | opening validates the checkpoint, replays the log and validates the result |
| WalJournal.Journal.CommitBatch | internal/agent/wal.go:290-338 | short writes are retried; a completed append is durable, and any failure leaves files that open to the old state plus a prefix of the batch |
| WalJournal.Journal.Checkpoint | internal/agent/wal.go:350-454 | stopped at any point of checkpoint and rotation, whatever a crash leaves opens to the state before or to the same state without its forgotten leases |
| WalJournal.Journal.Reopen | internal/agent/wal.go:273-283 | a reopened journal is valid again with the torn tail cut off |
| WalJournal.NewerCheckpoint | internal/agent/wal.go:350-404 | a newer checkpoint beside the old log replays to the checkpoint |
| Rates.ChargeIsCeiling | internal/commerce/usage_batch.go:145-149 | the charge is the least integer that is at least the exact product |
| Rates.ChargeIsMonotone | internal/commerce/usage_batch.go:145-149 | more bytes never cost less |
| Rates.BudgetCoversItsBytes | internal/commerce/quota.go:64-67 | the raw bytes a budget buys never cost more than the budget |
| PanelBooks.UseIsAllocated | internal/commerce/quota.go:45-86 | in balanced books use is at most allocation, and allocation at most a nonzero quota |
| PanelOps.GrantKeepsBalance | internal/commerce/quota.go:22-86 | a granted lease keeps conservation, the quota and the 512 MiB account ceiling |
| PanelOps.OfferIsLargest | internal/commerce/quota.go:22-86 | a lease is offered if and only if the request is in range, the entitlement is current and a budget that buys a byte is allowed; it gets the largest budget allowed, the most bytes this pays for, and as much time as five minutes and the entitlement allow |
| PanelOps.GrantTakesBudget | internal/commerce/quota.go:53-60 | a granted lease takes its budget from the ceiling of its own account only |
| PanelOps.ClosingFreesBudget | internal/commerce/quota.go:53-60 | a closed lease gives its whole budget back to the ceiling of its account |
| PanelOps.ExtensionAdds | internal/commerce/plans.go:147-151 | an add-on leaves every request its bytes more, and an unlimited one everything |
| PanelOps.SettleOneKeepsBalance | internal/commerce/usage_batch.go:150-166 | settling a record keeps conservation: used counters stay the sum of the charges and of the records |
| PanelOps.SettleAllKeepsBalance | internal/commerce/usage_batch.go:150-185 | the same for a batch |
| PanelOps.RetireKeepsBalance | internal/commerce/quota.go:111-183 | closing a lease releases exactly the unspent part of its budget |
| PanelOps.RetirementIsAccepted | internal/commerce/quota.go:125-183 | a retirement is accepted exactly when node and use match: the refund is never negative and never exceeds the allocation |
| PanelOps.QuotaKeepsBalance | internal/commerce/funding.go:235-243 | add-ons and refunds change a quota without breaking the books |
| PanelOps.RefundCurbs | internal/commerce/funding.go:235-243 | an accepted refund leaves no request more than it had before, if and only if it does not take the quota from above zero to zero |
| PanelOps.FullRefundLiftsTheQuota | internal/commerce/quota.go:45-48 | after a full refund of an entitlement with nothing allocated a request above the old quota is funded in full |
| PanelOps.PurchaseKeepsBalance | internal/commerce/service.go:468-480 | a new entitlement starts balanced |
| PanelSettlement.SettlementAccepts | internal/commerce/usage_batch.go:25-166 | a batch is accepted exactly when its records are compatible with the tables and with each other and the leases can pay for all of them |
| PanelSettlement.BalancedIsDetermined | internal/commerce/usage_batch.go:145-166 | balanced books are determined by their terms and the set of settled records, because ceiling charges telescope |
| PanelSettlement.SettlementIsOfASet | internal/commerce/usage_batch.go:25-81 | any order and any repetition of the same records has the same outcome, accepted or not |
| PanelSettlement.SettlementSplits | internal/commerce/usage_batch.go:15-186 | any split into batches settles the same |
| PanelSettlement.ReplayIsANoOp | internal/commerce/usage_batch.go:44-81 | sending settled records again, whole or in part, changes nothing |
| PanelSettlement.ConflictIsRefused | internal/commerce/usage_batch.go:32-60 | an identifier reused for another payload refuses the whole batch |
| PanelService.SumOutstanding | internal/commerce/quota.go:53-56 | the sum of a user's open budgets |
| PanelService.Service.AllocateBudget | internal/commerce/quota.go:22-86 | a lease is granted from the newest entitlement exactly when it can fund one, and the books stay balanced |
| PanelService.Deduplicate | internal/commerce/usage_batch.go:22-43 | repeated records are dropped and conflicting or invalid ones found |
| PanelService.SelectFresh | internal/commerce/usage_batch.go:44-81 | known records are skipped and conflicts with the table found |
| PanelService.FreshSettlesTheSame | internal/commerce/usage_batch.go:22-81 | dropping repeated and known records does not change the outcome |
| PanelService.Accumulate | internal/commerce/usage_batch.go:143-166 | running totals per lease and entitlement decide and compute the settlement of the new records |
| PanelService.Service.SettleUsageBatch | internal/commerce/usage_batch.go:15-186 | the batched algorithm has the outcome of settling record by record, all or nothing |
| PanelService.Service.RetireLease | internal/commerce/quota.go:111-183 | closes a lease whose use both sides agree on; repeating it changes nothing |
| PanelService.Service.ReduceQuota | internal/commerce/funding.go:235-243 | quota is taken back exactly when what stays covers all reservations, and the books stay balanced |
| EndToEnd.NextKeepsLocal | internal/agent/client.go:398-458 | every step of an Agent keeps its ledger in agreement with the panel: leases granted to it, no record lost, nothing forgotten that is not closed |
| EndToEnd.UsageIsTrue | internal/agent/client.go:398-429 | whatever part of the pending records is sent, the message tells the truth for ever |
| EndToEnd.RetirementIsTrue | internal/agent/client.go:430-458 | a retirement sent from any snapshot carries the final total of its lease, even while records are pending |
| EndToEnd.SettlesKeepsInv | internal/commerce/usage_batch.go:15-186 | settling any delivered message keeps the invariant of the whole system |
| EndToEnd.RetirementIsFinal | internal/commerce/quota.go:111-183 | the panel accepts a retirement only when it has settled every byte of a lease that will never move again |
| EndToEnd.RetiresKeepsInv | internal/commerce/quota.go:111-183 | closing on any delivered retirement keeps the invariant |
| EndToEnd.StepKeepsInv | internal/agent/client.go:398-458 | every step of any Agent, the panel or the network keeps the invariant |
| EndToEnd.OnlyTheHolderSpends | internal/agent/state.go:577-601 | an Agent admits nothing on a lease that was not granted to it |
| EndToEnd.LeaseIsReserved | internal/commerce/quota.go:57-86 | what was admitted on a lease costs at most what the panel holds reserved for it, open or closed |
| EndToEnd.QuotaHolds | internal/commerce/quota.go:45-86 | in every run the charge for all bytes admitted on all Agents, reported or not, is within the allocation, and that within a nonzero quota |
| EndToEnd.ClosedIsSettled | internal/commerce/quota.go:125-127 | once a lease is closed every record its holder ever made for it is settled |
| EndToEnd.LateDeliveryIsDuplicate | internal/commerce/usage_batch.go:44-81 | a late delivery for a closed lease carries nothing new and moves nothing |
| Delivery.TrueReportSettles | internal/commerce/usage_batch.go:15-186 | whatever part of its records an Agent reports, however late or repeated, the panel accepts it, if and only if no identifier in it is settled for another record: rule, node, entitlement, time and budget always match |
| Delivery.NoReportIsRefused | internal/agent/client.go:398-429 | with identifiers apart no message on the wire and no selection of pending records is ever refused |
| Delivery.SettledIsComplete | internal/commerce/usage_batch.go:82-186 | once what waits is settled the panel holds exactly what the lease's holder recorded |
| Delivery.StoppedLeaseCloses | internal/commerce/quota.go:111-183 | from every reachable world a stopped lease can be closed: what waits settles and then the retirement is accepted |
| EndToEndExample.QuotaIsReached | internal/commerce/quota.go:45-86 | for every quota up to a window there is a run of purchase, grant, reservation, spending and settlement that admits and settles exactly the quota, so the bound is tight |
| WalletFunds.MoveKeepsOk | internal/commerce/funding.go:107-120 | money that leaves a source enters an allocation and back: amount stays remainder plus unrestored allocations |
| WalletFunds.Draw | internal/commerce/funding.go:75-126 | a debit draws oldest money first, only on fitting sources, and succeeds exactly when they hold enough |
| WalletFunds.Restore | internal/commerce/funding.go:127-174 | a restoration returns money to the sources it came from and succeeds exactly when that much is still open |
| Wallet.OpeningIsOk | internal/commerce/funding.go:32-48 | tracking an account for the first time gives its old balance a source of its own |
| Wallet.TrackFunds | internal/commerce/funding.go:32-126 | a movement is booked exactly when it can be, and leaves every other entry's allocations alone |
| Wallet.OthersKeepTheirs | internal/commerce/funding.go:32-126 | what is restorable for one entry is untouched by bookings for another |
| Wallet.Account.Post | internal/commerce/service.go:371-398 | balance equals the sum of source remainders; an ordinary debit within the balance always finds its sources |
| Wallet.Account.Buy | internal/commerce/service.go:468-476 | a purchase debits its price and can later be refunded up to it |
| Wallet.Account.RefundPurchase | internal/commerce/funding.go:225-253 | refunds of a purchase never exceed its price and always find the funds it was paid from |
| Wallet.Account.PostEntry | internal/commerce/accounts.go:85-115 | an ordinary entry with a new name is booked exactly when the balance covers it, a credit as a source of its own |
| Wallet.Account.RequestRefund | internal/commerce/refunds.go:37-81 | a reservation is made exactly under the stated conditions, draws only on the order's own sources when those are known and leaves all others alone, and a repeated request changes nothing |
| Wallet.Account.ResolveRefund | internal/commerce/refunds.go:86-148 | cancelling always returns the exact amount; confirming never moves the balance and marks the order as partly or fully refunded by the sum of confirmed refunds; both are replayable |
| Wallet.Account.Recharge | internal/commerce/orders.go:59-112 | the first confirmation of an order always succeeds and becomes a source that remembers its order; a repeated one changes nothing |
| Refunds.FractionIsFloor | internal/commerce/funding.go:184-186 | the fraction is the exact share rounded down |
| Refunds.CommissionIsFloor | internal/commerce/lifecycle.go:535-536 | the split multiplication of a commission is the exact share of the price rounded down |
| Refunds.SplitRemovesTheSame | internal/commerce/funding.go:228-235 | however a refund is split, exactly the rounded-down share of the whole is removed |
| Refunds.Purchase.RefundPart | internal/commerce/funding.go:187-310 | removed quota is the share of the refunded price, a paid commission nets the rest of its amount, and the refund is refused exactly when quota or commission cannot be taken back |
| RefundDesk.Desk.Refund | internal/commerce/funding.go:187-310 | one transaction: the buyer's wallet, the entitlement's quota and the inviter's wallet move by the amount and its two shares, or nothing moves; each side is conserved, a repeated key changes nothing and the receipts add up to what was refunded |
| RefundDesk.Desk.PayCommission | internal/commerce/lifecycle.go:573-617 | the inviter's wallet gets exactly what refunds have left of the commission, once |
| RefundDesk.Desk.TakeBackCommission | internal/commerce/lifecycle.go:573-617 | the inviter's wallet gives back exactly what it had got, if it holds that much |
| Refunds.Purchase.SettleCommission | internal/commerce/lifecycle.go:573-617 | pays out what refunds have left of a commission, once |
| Refunds.Purchase.ReverseCommission | internal/commerce/lifecycle.go:573-617 | takes a commission back to a net of zero without taking twice what refunds took |
| Rotation.TurnKeepsTotal | internal/agent/failover.go:50-72 | the rotation's values keep their sum |
| Rotation.TurnStaysSettled | internal/agent/failover.go:50-72 | no value falls to minus the total weight, because the leader is always above zero |
| Rotation.FairShare | internal/agent/failover.go:41-78 | in any number of turns nobody is chosen more often than its share rounded up |
| Rotation.FullCycle | internal/agent/failover.go:41-78 | a full cycle chooses everybody exactly by weight and returns to the start |
| Rotation.AnyCycle | internal/agent/failover.go:41-78 | so does any window of that many turns, wherever it starts |
| Failover.Binding.SelectCandidate | internal/agent/failover.go:41-78 | picks the leader among the candidates that take part, one turn of the rotation among them; the others keep their values, the values keep their sum, and nobody's health changes except for the probing mark |
| Failover.UsableMeans | internal/agent/failover.go:52-62 | a candidate takes part if and only if it has not been tried, is not cooling down and is not being probed |
| Failover.Binding.MarkCandidate | internal/agent/failover.go:79-102 | an outcome moves only the health of its candidate: failures are counted, and a cooldown of the configured length starts exactly at the failure limit |
| Failover.EveryCycleIsFair | internal/agent/failover.go:41-78 | the cycle theorem for the configured weights |
| Failover.ChoicesRotate | internal/agent/failover.go:41-78 | any run of choices between the same candidates, whoever else is out, follows the rotation among them: values and picks are those of the turns |
| Failover.ChoicesAreFair | internal/agent/failover.go:41-78 | in such a run no candidate is chosen ahead of its share |
| Failover.EveryWindowIsFair | internal/agent/failover.go:41-78 | from a new binding, in any window of as many choices as the weights add up to, every candidate is picked exactly by its weight |
| Limits.StepKeepsFilled | internal/agent/limits.go:39-47 | whatever the clock does, the tokens stay between zero and the burst of the rate in force |
| Limits.BurstIs | internal/agent/limits.go:32-37 | the burst is a tenth of a second, at least one packet and at most 1 MiB |
| Limits.RelimitIs | internal/agent/limits.go:48-60 | the tokens after a change of limits are exactly what was earned at the old rate up to the old burst, cut to the new one |
| Limits.BucketIsConserved | internal/agent/limits.go:39-60 | over any run of requests and changes of the limit, tokens and grants together never outrun the rates in force |
| Limits.GrantsAreBounded | internal/agent/limits.go:95-108 | in any stretch of such a run at most the burst plus the highest rate times the elapsed time is granted, however long the bucket rested and however often the limit changed |
| Limits.DelaySuffices | internal/agent/limits.go:107-127 | a refused request that fits the burst is granted once the suggested delay has passed |
| Limits.WaitingHelps | internal/agent/limits.go:107-127 | waiting helps a refused request if and only if it fits the burst, and every packet does |
| Limits.Pool.Acquire | internal/agent/limits.go:61-93 | a slot is granted exactly within the limits on connections and addresses, and the counts match the open connections |
| Limits.Pool.Release | internal/agent/limits.go:80-92 | releasing, once or repeatedly, keeps connections equal to the sum of the per-address counts with no empty entry |
| Limits.Pool.TakeBytes | internal/agent/limits.go:95-108 | paying from the bucket is a step of the run, keeps the tokens within the burst, and a refusal comes with the time in which the missing tokens are earned, at least a millisecond |
| Limits.Pool.Configure | internal/agent/limits.go:48-60 | new limits are a step of the run with exactly the tokens that both rates and bursts allow, and the first limits fill the burst |
| Upgrade.NextKeepsInv | internal/agent/upgrade.go:214-271 | every step of supervisor and worker, every exit and every crash keeps what the files promise |
| Upgrade.ResultIsTruthful | internal/agent/upgrade.go:214-287 | once the journal is gone, success means the verified release that reported health, anything else means the executable that ran before staging, also for whatever a crash would leave |
| Upgrade.RollbackIsPossible | internal/agent/upgrade.go:259-272 | an interrupted installation can always be undone |
| Upgrade.InstallReachesTrial | internal/agent/upgrade.go:214-258 | a staged release can always be brought to its trial, with the old executable kept beside it |
| Upgrade.TrialSucceeds | internal/agent/upgrade.go:399-413 | from a trial whose release reported health a run stores its success for good, with the release installed |
| Upgrade.RestoreCompletes | internal/agent/upgrade.go:259-272 | from every rollback a run restores the earlier executable and stores that result for good |
| Upgrade.UnhealthyIsRolledBack | internal/agent/upgrade.go:399-420 | without a health report the only way out of a trial is the rollback |
| DuplicateWindow.StoringRemembers | cmd/udpbench/main.go:337-351 | overwriting a slot never forgets a packet that is not late |
| DuplicateWindow.AnswersLikeASet | cmd/udpbench/main.go:337-346 | the array answers as an unbounded set would, if and only if the number is not the empty mark in a free slot |
| DuplicateWindow.LargestNumberIsRefused | cmd/udpbench/main.go:311-314 | a fresh receiver takes the largest number for a duplicate |
| DuplicateWindow.Receiver.Receive | cmd/udpbench/main.go:337-351 | every number is counted as received at most once, in every order of arrival |

## Left out

- The per-packet charge planner (`Charge` requests in internal/agent/state.go:324-381). The `usage` event itself is
  modelled, validated and kept safe; no claim is made that a charge batch always applies.
- AgentStore.Store.SetConfig: the leases it names are known or become known, as AgentState.ConfigRestarts shows to be
  necessary; the relaxation that lets a rule keep its windows when only its route candidates change is not modelled.
- AgentStore.Store.ProcessCreditBatch: the clock is read once per pass, where the source reads it again for each window,
  and the replies to the single requests are left out; what they reserve is not.
- AgentStore.Store.TryCreditCharge: remembered sizes that have gone stale are ignored, where the source also deletes them;
  the wake-up of the usage reporter after a refusal is left out.
- AgentStore.Store.CreditProgress: visits windows in publication order, where the source sorts identifiers; the planner's
  theorems hold for every order.
- AgentSupply.NoStrandedCredit: its spool headroom is a slot for every open window and one more. The planner itself counts
  a slot for every event it has staged, so one free slot is not enough while other rules have windows to settle.
- AgentSystem.PostKeepsCore: the identity event is left out; the node name is a constant of the state.
- Writer queue, goroutines, notifications, retries and back-off: one request is processed after the other.
- WalJournal.Journal.Checkpoint: the checkpoint file is one atomic value, old or new; its encoding and its size limit are
  not modelled. Older file versions and read errors are left out.
- WalJournal.Journal.CommitBatch: sequence numbers stay below 2^64, where the source reports an overflow.
- PanelService.Service.AllocateBudget: 64-bit overflow of counters is not modelled; the test that a lease fits 64 bits is.
- PanelService.Service.SettleUsageBatch: tells success from failure but not one error from another; row locks are left out.
- PanelService.Service.RetireLease: leases from before reservations existed are left out.
- EndToEnd.QuotaHolds: states nothing for a quota of zero, which means unlimited.
- Wallet.Account.Post: one user's account; accounts do not share sources. Balance overflow and the event stream are left
  out, and sources with equal creation times are ordered by insertion.
- Wallet.Account.Buy: versions, idempotency keys and plan snapshots of purchases are left out.
- Wallet.Account.Recharge: channels, provider transactions and the states of an order before its payment are left out.
- Wallet.Account.RefundPurchase: the money side of a purchase refund; RefundDesk.Desk.Refund is the whole.
- Refunds.Purchase.RefundPart: quota and commission of a purchase refund, with the room in the books and in the wallet as
  parameters; RefundDesk.Desk.Refund reads both.
- Delivery.NoReportIsRefused: the limit on the size of one message is the sender's; PanelSettlement.SettlementSplits covers
  any division into messages.
- Failover.Binding.MarkCandidate: no claim of a single probe, because a late result of an older attempt clears the flag.
- Dialling the chosen candidates, their authorisation checks and their deadlines.
- Limits.GrantsAreBounded: real arithmetic instead of floating point.
- Upgrade.ResultIsTruthful: the companion service, signature checking and a worker that outlives its supervisor are not
  modelled; operation identifiers are fresh.
- Lease prefetching, renewal thresholds and rate estimates, which are heuristics.
- Sockets, TLS, tunnels, inspection, HTTP handlers, SQL text, payment gateways, the bot and the web interface.
- Money formatting, PROXY headers, plan durations and alerts, which would only add easy members.
