# Verified model of the liquidity-position executor

The executor moves owners' liquidity positions without supervision: it exits a position, taxes
the income, swaps, harvests profit and mints again, on a journal that must survive a crash at any
point. This project models that protocol and its integer accounting in Dafny and proves what
keeps it safe: rebuilding a cycle from receipts gives what the uninterrupted cycle would have
given, the wallet always covers what the strategies own, nothing is executed or counted twice,
and every limit holds over all runs. `dafny verify dfyconfig.toml` checks everything.

## How to read it

| module | source | what is modelled |
|---|---|---|
| `Basics` | | results, addresses (compared, never parsed), truncating division |
| `Swaps`, `CyclePlan` | executor/rebalance.ts | splitting an executed swap, planning a cycle's swaps |
| `BalanceSwap` | shared/strategy/rebalance.ts | sizing the principal swap |
| `FeeTax`, `Capital` | executor/fee-tax.ts, shared/strategy/capital.ts | income retention, profit harvest |
| `SwapFold`, `CycleReplay`, `SwapSlots`, `SwapJournal`, `CycleCommit` | executor/runner.ts, executor/recovery-runner.ts | the live swap loop, the replay from receipts, the slots recovery reuses, the stored swap journal over every run, the commit of both |
| `Allocations`, `Solvency` | executor/store.ts, executor/runner.ts | the allocation tables and whole-cycle wallet coverage |
| `RecoveryPolicy`, `OrdinaryJob` | executor/recovery.ts, executor/recovery-nonce.ts, executor/runner.ts | reading the journal, one job over all crashes |
| `Turnover`, `RetryLadder` | executor/store.ts, executor/swap-escalation.ts, executor/final-swap.ts | daily limits, retries, slippage bounds |
| `FablesJob`, `FablesGas`, `FablesDb`, `FablesTrigger` | executor/fablesJobs.ts, executor/fablesRunner.ts, executor/fablesSigner.ts, executor/fablesRecovery.ts, executor/fablesStore.ts, executor/fablesMonitor.ts, executor/fablesTrigger.ts, executor/store.ts | the Fables job machine, its gas ledger, its database with the ordinary strategies that share its wallets, its trigger |
| `ProfitWithdrawal` | executor/profit-withdrawal.ts | settling retained profit |
| `AdaptiveLogs`, `Scheduler`, `WalletLock` | indexer/, executor/wallet-lock.ts | scan, single flight, lock |

Protocols are state machines: a `Step` function over events, a `Run` over event lists, an
invariant every event keeps, and theorems about `Run` of any list. Crashes, chain decisions,
market moves and operator actions are events. Loops and tables the source updates in place are
methods and classes, each proved equal to a function the theorems are about.

Quotes, receipts, clocks, provider answers and key derivation are inputs. The assumptions are:
a verdict of reverted or absent is final; between precheck and commit an ERC-20 balance moves
only by the amounts of the cycle's receipts; one SQL transaction is one atomic step; a manual
rebroadcast is one atomic step; an ordinary job is reopened only from `recovery`; transaction
hashes are unique; a fee-tax plan taxes at most one leg (`FeeTax.PlanFeeTax`).

## What the proofs found

Some expected properties do not hold of the code as it stands. For each the project proves exactly
when the property does hold, and where a case is not obvious it gives a concrete one.

- Replaying swaps in slot order can fail on a lawful history when a later recovery pass reuses a
  low slot (`SwapSlots.OutOfOrderReplayCanFail`, `SwapSlots.ReusedSlotReplay`). Slot order is
  execution order pass by pass as long as no re-plan finds an unexecuted strategy record below an
  executed slot (`SwapSlots.SlotsFollowExecutionIffNoGap`, `SwapJournal.OrderlyRunReplays`).
- Only the live runner stores an audit entry, and every recovery pass re-quotes the tax record.
  So a tax swap that a recovery pass sent, or that confirmed before its entry was stored, is judged
  by the newest quote once another pass has planned, and the replay may reject it. The commit then
  succeeds exactly when the old output clears that quote's base slippage and slot order stays
  covered (`SwapJournal.EveryReceiptResolves`, `SwapJournal.RunReplays`,
  `CycleCommit.EveryRunCommitsTheSame`, `SwapSlots.RewrittenTaxRecordCanBlockReplay`).
- One wallet can get two signing jobs. An ordinary job is attributed to the wallet its strategy
  names now, saving a strategy overwrites that column, and the guard before it tests a state that
  a profit withdrawal never sets (`FablesDb.SaveLetsTwoSign`, `FablesDb.SaveOntoBusyWallet`). A
  save is harmless exactly when the strategy has no open job or keeps its wallet
  (`FablesDb.SaveIsHarmlessIff`).
- A Fables job cannot complete while another enabled strategy of its owner holds the range it
  moved to: the unique index refuses the write (`FablesDb.FablesDatabase.Complete`).
- `setFablesJobProgress` writes job and strategy in two transactions, so a crash between them
  leaves them apart until the next progress write, exactly when that write would have changed the
  strategy (`FablesDb.TornIffStateChanged`, `FablesDb.TornProgressIsObservable`).
- A withdrawal with four or more conversions can never be created, because its step rows collide
  (`ProfitWithdrawal.CreatableIffThreeConversions`).
- With 1 to 3 bps of base slippage a reverting swap is never quarantined, and a base of 0 is
  quarantined as if it were 100 (`RetryLadder.QuarantineExactly`).
- A cooldown ends early on anything but an evaluation of its own revision, a failed read included
  (`FablesTrigger.CooldownCarriedIff`, `FablesTrigger.FailedReadClearsCooldown`).

Two functions would break an invariant for inputs that no caller passes today; the project says
which: marking a released Fables turnover reservation, which the runner only ever confirms
(`Turnover.MarkKeepsLimit`, `Turnover.UnguardedMarkCanExceedLimit`), and the allocation update
check for a strategy that is not live in that wallet, where its incremental total is not the
recomputed one (`Allocations.IncrementalTotalIsRecomputed`).

## Model

| member | source | states |
|---|---|---|
| Swaps.AllocateExecution | executor/rebalance.ts:97-122 | accepted exactly when the intent is well formed, something but not more than the input was spent and the minimum was met; both splits are exact and stay within their buckets |
| Swaps.SplitIsProportional | executor/rebalance.ts:108-111 | principal's share of input and output is the floor of its proportion |
| Swaps.PureIntents | executor/rebalance.ts:108-121 | a pure-principal swap moves no fee and a pure-fee swap no principal, whatever the fill |
| Swaps.FullFillMatchesProjection | executor/rebalance.ts:73-77 | on a complete fill the pre-trade projection and the settlement split agree and nothing is left unspent |
| BalanceSwap.SolveIsExact | shared/strategy/rebalance.ts:28-50 | the solved input is the largest sale that does not overshoot the target ratio at the quoted rate, and zero on a light side |
| BalanceSwap.PlanBalanceSwap | shared/strategy/rebalance.ts:68-104 | a planned swap sells the heavy side only, a positive amount within its balance, exact at some quoted rate, and is priced for that amount |
| CyclePlan.MergeFeeSale | executor/rebalance.ts:48-63 | merged or queued, the swaps stay within every bucket, at most one runs per direction, and exactly the convertible fees are sold |
| CyclePlan.PlanCycleSwaps | executor/rebalance.ts:21-71 | the whole plan, quoted: opening buckets by fee handling, budget met, fees sold in full under convert_to_quote and not at all otherwise |
| FeeTax.ChooseSource | executor/fee-tax.ts:86-91 | the first best sufficient settlement leg, else wrapped-native leg, else the first largest leg |
| FeeTax.SourceCoversTarget | executor/fee-tax.ts:72-94 | for all values the chosen leg alone is worth the 10 percent target |
| FeeTax.RawTaxBounds | executor/fee-tax.ts:96-98 | the tax is positive, within its leg, and its value is the target rounded up by less than one unit |
| FeeTax.PlanFeeTax | executor/fee-tax.ts:44-135 | errors, the threshold, and above it exactly one leg taxed: after-tax plus tax is the original on each leg, and the tax is kept or sold for settlement |
| Capital.PlanHarvest | shared/strategy/capital.ts:18-55 | deploy plus profit is the amount on each side, both nonnegative; a triggered harvest keeps both legs alive |
| Capital.HarvestIsProportional | shared/strategy/capital.ts:29-43 | exactly when a harvest triggers, and that it deploys the floor of the capped proportion |
| SwapFold.RunSwapLoop | executor/runner.ts:443-524 | the live loop accepts exactly acceptable fills and ends with the sum of their independent effects |
| SwapFold.ApplyExecutedSwaps | executor/recovery-runner.ts:474-536 | the receipt loop computes the replay function, first error included |
| SwapFold.ReplayMeaning | executor/recovery-runner.ts:504-532 | a replay succeeds exactly when every execution is acceptable and no strategy swap overdraws a bucket, and then equals the sum of effects |
| CycleReplay.SumPermutes | executor/recovery-runner.ts:486-534 | the books do not depend on the order of the swaps |
| CycleReplay.RoundNeverOverdraws | executor/runner.ts:443-524 | swaps planned within the current books keep every bucket nonnegative after every prefix |
| CycleReplay.HistoryNeverOverdraws | executor/recovery-runner.ts:1130-1142 | the same over any number of crashes and re-plans |
| CycleReplay.RecoveryPassKeepsHistoryLawful | executor/recovery-runner.ts:1097-1142 | a recovery pass that executes a prefix of its plan extends a lawful history |
| CycleReplay.ReplanOpensWithTheBooks | executor/recovery-runner.ts:1130-1146 | re-planning from the remaining funds opens with exactly the books the executed swaps left |
| CycleReplay.ReplayEqualsHistory | executor/recovery-runner.ts:474-536 | in any receipt order, once receipts resolve to the executed swaps, a successful replay equals the executed history, and success is exactly coverage along that order |
| CycleReplay.InOrderReplaySucceeds | executor/recovery-runner.ts:486-534 | a lawful history in slot order replays to its own books once its receipts resolve to it |
| CycleReplay.ReplayUpToTaxQuotes | executor/recovery-runner.ts:486-534 | the same with tax swaps judged by other quotes and minima: the replay succeeds exactly when every output clears the minimum it is judged by and the order stays covered, and then equals the executed books |
| CycleReplay.InBlocksStaysCovered | executor/recovery-runner.ts:356-359 | when each pass lies wholly behind the earlier ones in slot order, slot order stays covered, whatever the order within a pass |
| CycleCommit.RunCycle | executor/runner.ts:543-619 | the runner from swaps to commit, with every check in its order |
| CycleCommit.CommitFromChainFacts | executor/recovery-runner.ts:985-1009 | recovery's commit from receipts and stored harvest, with every check in its order |
| CycleCommit.RecoveryCommitsTheSameCycle | executor/recovery-runner.ts:985-1009 | for any swaps, tax, handling and reward, and receipts that resolve to the executed swaps up to tax quotes, recovery commits the runner's components exactly when those clear and stay covered, and fails otherwise; deploy plus profit always matches |
| CycleCommit.EveryRunCommitsTheSame | executor/recovery-runner.ts:951-1013 | over every run of the stored journal, with any crashes and re-plans: the runner's components exactly when a forgotten tax clears the newest quote and slot order stays covered, else an error |
| CycleCommit.InterruptedRunCommitsTheSame | executor/runner.ts:462-500 | a live run cut off anywhere and never re-planned is always committed identically by recovery |
| CycleCommit.RecoveredRunCommitsTheSame | executor/recovery-runner.ts:1082-1313 | after any recovery passes that each found no gap below an executed slot, only a forgotten tax that the newest quote has outrun can stop the identical commit |
| CycleCommit.PlannedCycleCommits | executor/runner.ts:589-619 | a planned cycle commits exactly when the mint stays within the deploy amounts; no negative check fires |
| SwapSlots.TaxSlots | executor/recovery-runner.ts:1171-1183 | a tax swap takes the slot of its own earlier record or a new one beyond all records |
| SwapSlots.SwapSlotsFor | executor/recovery-runner.ts:1184-1190 | strategy swaps take distinct slots, each the first unexecuted record of the same direction or a new one |
| SwapSlots.PlanSlots | executor/recovery-runner.ts:1171-1200 | the pass queues only unexecuted slots, and every executed record but a tax's own survives the rewrite |
| SwapSlots.SlotPlanIsPlanned | executor/recovery-runner.ts:1171-1200 | an unexecuted tax first in the slot of its only record, then every swap in a slot of its own; exactly those records are written |
| SwapSlots.LiveSlotsAreNumbered | executor/runner.ts:366-384 | on an empty journal this numbers the slots by position, taxes first, as the live runner does |
| SwapSlots.SlotsFollowExecutionIffNoGap | executor/recovery-runner.ts:1184-1190 | whatever is planned next goes behind everything executed exactly when no unexecuted strategy record lies below an executed slot |
| SwapSlots.RewrittenTaxRecordCanBlockReplay | executor/recovery-runner.ts:505-508 | a concrete confirmed tax swap that can no longer be replayed |
| SwapSlots.ReusedSlotReplay | executor/recovery-runner.ts:1184-1188 | in any lawful history whose last swap reused a slot below earlier ones, fees and reinvestment included, slot order is covered exactly when that swap was affordable before them and behind each of them |
| SwapSlots.OutOfOrderReplayCanFail | executor/recovery-runner.ts:532 | a concrete lawful history that the replay rejects |
| SwapJournal.StepKeepsInv | executor/recovery-runner.ts:1171-1242 | every plan, record write, confirmation, failure, audit entry, error and crash keeps the journal readable, its swaps affordable and its slots distinct |
| SwapJournal.EachSlotConfirmsOnce | executor/recovery-runner.ts:1171-1191 | over every run each slot confirms at most once, and at most one tax swap does, before all others |
| SwapJournal.EveryRunIsLawful | executor/recovery-runner.ts:1130-1142 | over every run the executed swaps form a lawful history pass by pass, unless one was refused |
| SwapJournal.EveryReceiptResolves | executor/recovery-runner.ts:487-508 | over every run each receipt resolves to exactly what was executed, except an unaudited tax swap after a later plan, which keeps its amounts under that plan's quote and the base slippage |
| SwapJournal.RecoveryPlansFromTheBooks | executor/recovery-runner.ts:1097-1142 | a recovery pass that gets past its replay plans from exactly the books the executed swaps left |
| SwapJournal.RefusedStaysRefused | executor/recovery-runner.ts:506-508 | a confirmed swap the runner refused is refused by every later replay, so nothing is planned or committed on top of it |
| SwapJournal.RunReplays | executor/recovery-runner.ts:474-536 | over every run the stored journal replays exactly when no swap was refused, a forgotten tax clears and slot order stays covered, and then to the executed books |
| SwapJournal.OrderlyRunReplays | executor/recovery-runner.ts:1184-1190 | coverage is automatic when every re-plan found no gap |
| SwapJournal.LiveRunReplays | executor/runner.ts:462-500 | without a re-plan the journal replays unless a swap was refused |
| Allocations.ViewsAgree | executor/store.ts:1035-1047 | the component view is nonnegative, sums to the stored total, and the check inside the transaction computes the same view |
| Allocations.CompoundingKeepsTotals | executor/store.ts:1050-1067 | compounding turns classified fees into principal and changes no total and no profit |
| Allocations.AssertWalletAllocations | executor/store.ts:1083-1090 | passes exactly when every token a live strategy owns is covered |
| Allocations.AssertWalletAllocationUpdate | executor/store.ts:1096-1122 | passes exactly when each updated token's incremental total lies between zero and the balance |
| Allocations.IncrementalTotalIsRecomputed | executor/store.ts:1107-1121 | that total equals the recomputed one exactly for a live strategy or a zero amount |
| Allocations.UpsertAllEffect | executor/store.ts:1169-1171 | the write sets each token's total, moves the wallet total by the difference, and touches nothing else |
| Allocations.WriteIsSeen | executor/store.ts:1069-1076 | nonnegative components are seen exactly as written, every other view is unchanged |
| Allocations.AllocationStore.CompoundHeld | executor/store.ts:1050-1067 | the row loop performs exactly the compounding function |
| Allocations.AllocationStore.CommitComponents | executor/store.ts:1456-1461 | all tokens or none, exactly when no component is negative |
| Allocations.AllocationStore.CommitProfitMutation | executor/store.ts:1129-1183 | a compare-and-set: applies exactly when expectations match, the result is nonnegative and covered; otherwise nothing changes; the second check never disagrees |
| Solvency.BooksFollowWallet | executor/runner.ts:501-523 | one swap moves a side's books as it moves the wallet, except for retained tax |
| Solvency.CycleConserves | executor/runner.ts:610-619 | new allocation = prior + collected + reward + swap flows - minted - retained tax, all components nonnegative |
| Solvency.PlannedTaxIsRetained | executor/fee-tax.ts:104-121 | the planned tax never leaves a token short |
| Solvency.FinalCoverageCannotFail | executor/runner.ts:620-623 | a covered precheck implies the final assertion, and slack grows by exactly the retained tax |
| Solvency.PlannedCycleIsSolvent | executor/runner.ts:99-108 | end to end from the precheck, for any planned tax and swaps and any fills |
| RecoveryPolicy.ConsumedNonceIsFinal | executor/recovery-nonce.ts:10-19 | a missing transaction whose nonce is consumed is judged absent and can never confirm |
| RecoveryPolicy.CanConfirmIffUnconsumed | executor/recovery-nonce.ts:10-19 | a missing transaction can still confirm in some continuation of the chain exactly while its nonce is unconsumed |
| RecoveryPolicy.AmbiguousIsUndecided | executor/recovery-nonce.ts:10-19 | ambiguous is said only while both outcomes remain possible, and for a nonce already taken by a pending transaction exactly unless a confirmed local replacement is known |
| RecoveryPolicy.NextTransactionIndex | executor/store.ts:1258-1268 | the lowest unfinished slot, else one beyond all rows; never a confirmed or sent one |
| OrdinaryJob.Reconcile | executor/recovery.ts:173-190 | one fact per row, however well each could be read; a row is brought in line exactly with a final verdict |
| OrdinaryJob.DispositionMeaning | executor/recovery.ts:30-39 | each disposition in terms of what has confirmed on chain; manual review exactly on an unclear fact, waiting exactly on another undecided or unread one |
| OrdinaryJob.StepKeepsInv | executor/recovery-runner.ts:1316-1384 | every send, receipt, error, crash, chain decision, inspection and resume keeps the invariant |
| OrdinaryJob.ExactlyOnce | executor/store.ts:1464 | over all runs at most one decrease, collect and mint confirm and at most one cycle commits; completed means exactly one of each, abandoned means nothing confirmed |
| OrdinaryJob.RestartSafeIffNothingConfirmed | executor/recovery.ts:30-39 | restart_safe exactly when every transaction could be read and none has confirmed or still can |
| OrdinaryJob.FinishedIsFinal | executor/runner.ts:707-736 | a completed or abandoned job is never touched again |
| Turnover.ReserveDailyMeaning | executor/store.ts:1205-1248 | a reservation is refused exactly when it contradicts a final one or would pass the limit, and replaces rather than adds |
| Turnover.DailyLimitHolds | executor/store.ts:1205-1256 | over all reservations, moves across midnight, confirmations and releases every group and day is within the limit |
| Turnover.DailyTurnover.SumOthers | executor/store.ts:1228-1230 | the summing loop computes what the others of the group use |
| Turnover.DailyTurnover.Reserve | executor/store.ts:1205-1248 | the table operation performs exactly the reservation function |
| Turnover.FablesLimitHolds | executor/fablesJobs.ts:277-310 | the same bound over every run of a Fables runner |
| Turnover.MarkKeepsLimit | executor/fablesJobs.ts:306-310 | a mark of any kind keeps the bound exactly when the row was not released or still fits |
| Turnover.UnguardedMarkCanExceedLimit | executor/fablesJobs.ts:306-310 | a table where a mark no caller makes today would pass the limit |
| RetryLadder.EscalationIsBounded | executor/swap-escalation.ts:14-17 | escalation only widens and never leaves the legal range |
| RetryLadder.NextRetry | executor/store.ts:1594-1602 | the delay is between 5 and 300 seconds, at least 30 and without quarantine when deferred |
| RetryLadder.QuarantineExactly | executor/store.ts:1611-1657 | a swap that always reverts is quarantined exactly from failure max(3, n), or never below 4 bps |
| RetryLadder.FirstAtCapIsLeast | executor/swap-escalation.ts:22-24 | n is the least number of doublings that reaches the cap |
| RetryLadder.ThirdStrikeQuarantines | executor/store.ts:1594-1602 | without deferral quarantine comes exactly at the third execution failure, however noise interleaves |
| RetryLadder.AcceptedSendIsBounded | executor/final-swap.ts:36-49 | a send with a reference is accepted exactly within both limits, hence minOut * 10^5 >= reference * (10000 - impact) * 9 |
| RetryLadder.AcceptedSendHasMinimum | executor/final-swap.ts:36-41 | every accepted send promises a positive minimum within ten percent of its quote |
| FablesJob.StepKeepsInv | executor/fablesJobs.ts:198-243 | every job event keeps budgets, earned stages, the journal and the truth of closed states |
| FablesJob.SpendingIsBounded | executor/fablesRunner.ts:326-341 | at most one effective transaction per mutation stage, eight per approval stage, 29 confirmed in all, in every run |
| FablesJob.ClosedIsFrozen | executor/fablesJobs.ts:153-157 | no event changes a closed job |
| FablesJob.ClosedTellsTruthForever | executor/fablesJobs.ts:312-398 | cancelled: no transaction; failed: only approvals confirmed; completed: one exit and one deposit; nothing unresolved; for ever |
| FablesGas.FablesJournal.SettleFinalised | executor/fablesRecovery.ts:54-79 | settles exactly what the chain has finalised and counts the rest |
| FablesGas.FablesJournal.RebuildGas | executor/fablesRecovery.ts:82-91 | inserts every missing gas fact, or fails exactly when a final row lacks its receipt fields |
| FablesGas.FablesJournal.Reconcile | executor/fablesRecovery.ts:47-96 | both loops together; on a sound journal it cannot fail |
| FablesGas.SumsAgree | executor/fablesJobs.ts:55-56 | one exact row per final transaction makes the ledger sum the journal sum |
| FablesGas.GasSurvivesCrashes | executor/fablesSigner.ts:74-86 | after any receipts, missed inserts, crashes and passes, one pass makes ledger and journal agree |
| FablesGas.CompletedJobIsAccounted | executor/fablesRunner.ts:676-700 | a completed job's gas ledger already holds one exact row per final transaction and adds up to the journal |
| FablesDb.FablesDatabase.CreateJob | executor/fablesJobs.ts:118-151 | created exactly for an enabled automatic strategy that is ready with this very configuration, on a wallet no open Fables job has and to which no open ordinary job is joined now |
| FablesDb.FablesDatabase.SetProgress | executor/fablesJobs.ts:153-167 | closed jobs refuse; a crash between the two writes leaves only the strategy row behind |
| FablesDb.FablesDatabase.PassEvent | executor/fablesRunner.ts:676-717 | each event of a pass moves the journal by the job machine, and the strategy row exactly where the source writes both |
| FablesDb.FablesDatabase.QuarantineInterrupted | executor/fablesJobs.ts:169-181 | exactly the running jobs and their strategies move to recovery |
| FablesDb.FablesDatabase.Resume | executor/fablesJobs.ts:227-243 | exactly from recovery with nothing unresolved in the journal; reverted rows become reviewed |
| FablesDb.FablesDatabase.Close | executor/fablesJobs.ts:312-354 | accepted exactly by the journal's own test, and frees the strategy to paused or monitoring |
| FablesDb.FablesDatabase.Complete | executor/fablesJobs.ts:362-398 | accepted exactly at the verify stage with nothing unresolved and the new range free; the revision, pool and range comparison cannot fail; the new position and revision appear together |
| FablesDb.FablesDatabase.Upsert | executor/fablesStore.ts:51-82 | accepted exactly for the next revision of a strategy without an open job on a range no other enabled strategy has |
| FablesDb.FablesDatabase.MonitorSnapshot | executor/fablesMonitor.ts:18-21 | the work list holds the enabled strategies that are neither disabled nor in a job |
| FablesDb.FablesDatabase.MonitorWrite | executor/fablesStore.ts:103-124 | the monitor's unconditional write never hits a strategy with an open job |
| FablesDb.FablesDatabase.SaveOrdinary | executor/store.ts:348-358 | the wallet column is overwritten; the Fables side is untouched, and wallet exclusivity survives exactly when the save is harmless |
| FablesDb.FablesDatabase.CreateOrdinary | executor/store.ts:646-727 | an error without a wallet; created exactly without an unresolved recovery job or an open Fables job on that wallet and without an open job of the strategy |
| FablesDb.SaveIsHarmlessIff | executor/store.ts:348-358 | a save keeps wallets exclusive exactly when the strategy has no open job or keeps its wallet |
| FablesDb.SaveLetsTwoSign | executor/api.ts:627-656 | a withdrawal runs, its strategy looks free and is saved off its wallet, and a Fables job that was refused is now created: two signers on one wallet |
| FablesDb.SaveOntoBusyWallet | executor/store.ts:348-358 | a save can move an open ordinary job onto the wallet of an open Fables job |
| FablesDb.CoherenceMeaning | executor/fablesJobs.ts:118-181 | an open job's strategy is executing or in recovery with the job's own configuration, no wallet has two open Fables jobs, and none shares its wallet with an ordinary job while saves are harmless |
| FablesDb.TornIffStateChanged | executor/fablesJobs.ts:161-166 | a crash between the two writes separates job and strategy exactly when the second write would have changed the strategy |
| FablesDb.TornProgressIsObservable | executor/fablesJobs.ts:161-166 | the state a crash between the two writes leaves |
| FablesTrigger.RowRemembersStreak | executor/fablesTrigger.ts:19-32 | the stored row is exactly the unbroken streak at the end of the history |
| FablesTrigger.StreakIsSuffix | executor/fablesTrigger.ts:27-29 | that streak is a suffix of sightings begun at the stored time |
| FablesTrigger.ReadyMeansConfirmed | executor/fablesTrigger.ts:19-32 | ready exactly when an unbroken run of sightings of one revision and side is confirmationSeconds old and no cooldown runs |
| FablesTrigger.ResetsRestart | executor/fablesMonitor.ts:53-57 | every other event makes confirmation start over |
| FablesTrigger.CooldownCarriedIff | executor/fablesJobs.ts:320-328 | over every history the row carries a cooldown exactly when a completion or failure wrote it and every later event was an evaluation of the same revision |
| FablesTrigger.CooldownHolds | executor/fablesTrigger.ts:19-32 | while it is carried no evaluation of its revision is ready before it ends |
| FablesTrigger.FailedReadClearsCooldown | executor/fablesMonitor.ts:53-57 | a failed read ends it early |
| ProfitWithdrawal.StepKeepsInv | executor/profit-withdrawal.ts:161-324 | every live, chain and recovery event keeps the accounts |
| ProfitWithdrawal.WithdrawalCountsEverySwapOnce | executor/profit-withdrawal.ts:213-316 | profits are the fold of the booked, confirmed swaps; a completed job released the initial settlement profit plus all gains, once |
| ProfitWithdrawal.ReleaseMatchesProfit | executor/profit-withdrawal.ts:105-106 | the release mutation's own comparison cannot fail |
| ProfitWithdrawal.ProfitStillThere | executor/profit-withdrawal.ts:380-383 | an unbooked swap's profit is still attributed when recovery books it |
| ProfitWithdrawal.RecoverOneVerdict | executor/profit-withdrawal.ts:355-398 | neither the ledger-row comparison nor the profit comparison can fail: a swap is refused for its own flow or for wallet coverage only |
| ProfitWithdrawal.Withdrawal.RecoverSwaps | executor/profit-withdrawal.ts:348-399 | the recovery loop books every confirmed swap not yet in the ledger, and succeeds exactly when all of those are acceptable and covered |
| ProfitWithdrawal.ClosedIsFinal | executor/profit-withdrawal.ts:404-428 | a closed withdrawal is never touched again |
| ProfitWithdrawal.CreatableIffThreeConversions | executor/profit-withdrawal.ts:194-200 | the job's step rows are distinct exactly with at most three conversions |
| AdaptiveLogs.PlanBatch | indexer/adaptiveLogs.ts:47-55 | a nonempty gapless batch of bounded windows from the cursor |
| AdaptiveLogs.RunBatch | indexer/adaptiveLogs.ts:57-81 | the first rejection in window order decides; anything is committed only when every window returned rows, in order up to the first failed commit |
| AdaptiveLogs.CommitBatch | indexer/adaptiveLogs.ts:77-81 | commits in order and stops at the first failure |
| AdaptiveLogs.TilesCoverOnce | indexer/adaptiveLogs.ts:32-37 | gapless ascending windows cover each block of the range exactly once |
| AdaptiveLogs.Scan | indexer/adaptiveLogs.ts:38-84 | terminates for every rejection pattern, shrinks at most log2 of the limit times, and has always committed a gapless bounded prefix, all of the range when done, of windows whose fetch returned rows and whose commit succeeded |
| Scheduler.CoalescingScheduler.Ask | indexer/coalescingScheduler.ts:24-37 | performs exactly the request transition |
| Scheduler.CoalescingScheduler.PassEnds | indexer/coalescingScheduler.ts:39-60 | settles this pass's waiters and begins at most one follow-up |
| Scheduler.CoalescedService | indexer/coalescingScheduler.ts:24-60 | passes never overlap, each request is served by the first pass to begin at or after it, and that pass carries the union of its requests' triggers |
| Scheduler.SettledForGood | indexer/coalescingScheduler.ts:42-47 | a settled request never settles again |
| Scheduler.TwoPassesServeEveryone | indexer/coalescingScheduler.ts:49-58 | every request is settled after the current pass and at most one more |
| WalletLock.WalletLocks.Enter | executor/wallet-lock.ts:8-14 | performs exactly the chaining transition |
| WalletLock.WalletLocks.Release | executor/wallet-lock.ts:17-20 | performs exactly the release transition |
| WalletLock.MutualExclusionInCallOrder | executor/wallet-lock.ts:8-21 | at most one task per wallet is inside, in call order |
| WalletLock.BusyIffUnreleased | executor/wallet-lock.ts:3-5 | the map has an entry exactly while some call has not released |
| WalletLock.NextMayBegin | executor/wallet-lock.ts:15-20 | a failed task still lets the next one in |

## Left out

- SwapJournal.StepKeepsInv: approvals, revokes and the daily reservation around a swap appear only as errors that end the pass; what a live run reads from balances is what its receipts show.
- FablesGas.CompletedJobIsAccounted: the runner is the only one that completes a job, and enters it only behind a reconcile pass.
- Native-currency legs: gas and refunds leave no receipt log, and the code itself stops recovery there; replay and solvency are about ERC-20 pools.
- The terminal actions `hold_quote` and `collect_fees` (executor/recovery-runner.ts:539-949): the ordinary job is the rebalance; their accounting uses the same swap and allocation functions.
- Staking unwind and reward swaps: the reward is an amount in the quote token; steps 12 to 16 appear in the job machine only as sends.
- CycleCommit.CommitFromChainFacts: the mint's owner check and the restake before the commit are not modelled, because they only read the chain or send more steps.
- Recovery's early wallet check and its correction of a token-role configuration (executor/recovery-runner.ts:1098-1102, executor/store.ts:1693): the first repeats the final check on a smaller amount, the second runs before any swap.
- CyclePlan.PlanCycleSwaps: the target units come in as numbers; tick and square-root-price arithmetic is not part of this model.
- OrdinaryJob.ExactlyOnce: approvals, swaps and restakes may confirm several times and are only ordered here; swaps confirm once per slot (`SwapJournal.EachSlotConfirmsOnce`).
- OrdinaryJob.Reconcile: matching a receipt against sender, target and calldata is part of how well a transaction could be read, an input; an unread one may have any truth.
- FablesJob.SpendingIsBounded: stage guards that read pool state (in range, shares, allowances, budgets) are left open, so every market behaviour is included.
- FablesDb.FablesDatabase.CreateJob: wallet ownership and configuration parsing are part of the input.
- FablesDb.FablesDatabase.SaveOrdinary: the routes' own checks (revision, owner, gas reserve) decide whether a save happens; which saves happen is left open.
- FablesTrigger.ReadyMeansConfirmed: last tick, last block and error text of a monitor row are not stored in the model; nothing reads them back.
- ProfitWithdrawal.Withdrawal.RecoverSwaps: the coverage verdict of each booking is an input here and proved in `Allocations`.
- Turnover.DailyLimitHolds: the limit is fixed over the run and a job's wallet and strategy do not change.
- AdaptiveLogs.Scan: a batch's fetches are answered together; the order in which promises settle has no effect on the code's choice.
- HTTP API, vault, configuration parsing, RPC reads, calldata, receipt decoding, aggregator and solver requests: inputs.
- `monitor.ts`, performance, recommendation and public reporting: presentation, floating point, or policies outside the modelled files.
- Process-local retry delays, profit buckets, database identity and RPC metrics: they would only add easy members.
