# A verified model of the ckSOL minter

The ckSOL minter holds SOL on Solana and mints ckSOL on a ledger of the Internet Computer. Users
deposit SOL on addresses derived from their accounts; the minter sweeps these addresses to its main
address, settles the sweeps against what Solana executed, and mints the credited amounts. Users burn
ckSOL to withdraw; the minter groups withdrawals into transactions on durable nonce accounts, signs
and broadcasts them, and records their outcome. Everything it does is recorded as events, and the
state is rebuilt from the event log after an upgrade.

This project models that core in Dafny and proves what every event keeps, what holds over every
run, and what holds over every run of the minter together with the chain or the ledger.

## How the model is built

- `Minter` gives the state, the events and the transition of each event as functions. The assertions
  of a transition are collected in a predicate `CanX`: where the source would trap, rolling the message
  back, the predicate is false. "Never traps" is then a theorem about reachable states.
- `DepositBook` and `NoncePool` do the same for the two components of the state. `DepositStages`,
  `NoncePool` and `LiveState` are the objects with their in-place updates and loops, proved to make
  exactly these transitions. `LiveState` also holds the application of an event and the replay loop.
- `Sweeps` and `Settlement` hold the sweep planner, the recovery of a plan from a message, the
  settlement, and a model of how Solana executes the planned message.
- `DepositLifecycle`, `WithdrawalRecords` and `MinterRuns` hold the global invariant. Next to the state
  they keep a history: the stage every deposit and every withdrawal has reached, and what each bound
  nonce account is bound to. `Solvency`, `Settings`, `EventTimes` and
  `Replaying` hold what follows over whole runs.
- `NonceChain`, `WithdrawalProtocol`, `WithdrawalTasks` (withdrawals against the chain), `MainAddress`,
  `FundedLandings` (what sweeps bring to the main address and withdrawals take from it), `MintProtocol`,
  `Backing` (mints against the ledger), `SweepExpiry` (sweeps against finalized blocks), `TimerRounds`,
  `RoundRuns`, `DepositCalls` and `WithdrawCalls` (rounds and calls across their awaits) are state machines
  over the steps between two awaits. A snapshot taken before an await is part of the state; every other
  event may happen in between.
- `FeeSolvency` and `InsolventRuns` give the exact condition on the withdrawal fee under which every run
  is solvent, on the runs of `WithdrawCalls`.
- `InsertionOrdered`, `TimedSizedMaps`, `ScanSchedule` and `Watchlists` are the containers and the scan
  schedule; `Batches` is the batching of withdrawals; `Memos` is the encoding of ledger memos; `Prelude`
  holds sums over maps and orders of finite sets.

## What is taken from the environment

- Amounts are unbounded natural numbers; total supply keeps the 64-bit sums of the source from
  overflowing. `WithdrawalBatches.Next` models its checked 64-bit arithmetic explicitly, and timestamps
  saturate as in the source.
- Key derivation is injective and never yields the main address. Ledger burn indices are fresh. The two
  clock reads of one message agree; `ClockReadsMatter` shows that replay needs this.
- The chain is its finalized history: nonce values of an account never repeat, only a message signed by
  the minter advances a pool account, a read returns some value the account had since it joined the
  pool, and a blockhash is accepted for 150 blocks. The status of a sweep is answered from a view no
  older than the height read before. A status or a fetched transaction tells truly whether a
  transaction was executed without an error.
- Nothing but the withdrawal transactions of the minter takes lamports from its main address.
- The ledger follows the deduplication rule of ICRC-1: it remembers a transaction as long as it would
  accept it again. Everything ever sent to it, mints and burns alike, may be executed at any time, whether
  or not a reply arrives; when it answers that it refuses, it has not executed. An upgrade loses the calls
  in progress. The keys reserved by the Solana runtime are a parameter.
- For solvency, each created transaction serves at least one request. The validation of the parameters
  does not relate the withdrawal fee to the cost of a transaction. `Solvent` and `LedgerIsBacked` ask that
  each accepted request keeps that cost; `FeesAreKept` derives it for every run in which the withdrawal
  fee covers it, and `SolventIffFeeCovers` proves that solvency holds for no lower fee.
- Distinct transactions have distinct signatures. Expired signatures are not remembered by the source,
  so uniqueness is stated for submitted, succeeded and failed ones.
- The balance scan of the automatic flow is modelled in `DepositCalls` as the document describes it; elsewhere
  it appears as the event it records.

## Where code and documentation differ

- `docs/src/development/design.md`, line 176, says that `deposit_sol` compares the latest deposit id of
  the account before and after its balance read and returns the id a scan queued meanwhile. The code
  (`minter/src/deposit/sweep/mod.rs`) does not: it relies on the guard alone. The model follows the code.
  `QueueTrapsIff` gives the exact condition under which the call would trap. The scan of the same
  paragraph skips accounts with a call in progress before its own await, but does not look at the guards
  again afterwards: `ScanThenCallTraps` gives the interleaving in which the call then traps, and
  `DocumentedScanTrapsIff` shows that it traps exactly when the scan queues a deposit for an account whose
  guard is held. So together with the call as it is, the scan must check the guard again after its await;
  `InterleavingsAreSafe` proves every interleaving safe with such a scan.
- The description of `TimedSizedMap` says that a rejected insertion evicts no live entry, which holds; but
  on a map rebuilt beyond its capacity a rejection for lack of room does evict expired entries.
  `RefusalChangesIff` states exactly when a rejection changes the map.

## Model

| member | source | states |
|---|---|---|
| Solana.BuildBatchWithdrawalMessage | minter/src/sol_transfer/mod.rs:83-101 | builds the nonce advance followed by the transfers in order, is refused exactly when the message exceeds the transaction size, and never for ten transfers or fewer |
| Solana.WithdrawalFits | minter/src/sol_transfer/mod.rs:130-141 | a withdrawal of at most ten requests always fits into 1232 bytes |
| Solana.WithdrawalSizeIs | minter/src/sol_transfer/mod.rs:83-141 | a withdrawal to n different addresses takes 240 + 49 n bytes, so that twenty would fit and twenty-one would not |
| Solana.WithdrawalSigners | minter/src/sol_transfer/mod.rs:104-116 | a withdrawal message needs the signature of the minter and no other |
| InsertionOrdered.InsertionOrderedMap.Insert | minter/src/utils/insertion_ordered_map/mod.rs:37-49 | inserting moves the key to the end of the order and returns the value it had; both indexes stay inverse to each other below the counter |
| InsertionOrdered.InsertionOrderedMap.Remove | minter/src/utils/insertion_ordered_map/mod.rs:52-59 | removing keeps the order of the other keys and returns the value the key had |
| InsertionOrdered.InsertionOrderedMap.Iter | minter/src/utils/insertion_ordered_map/mod.rs:78-83 | iteration yields each key once, with its value, in insertion order |
| InsertionOrdered.InsertionOrderedMap.Equals | minter/src/utils/insertion_ordered_map/mod.rs:108-110 | two maps are equal exactly when their sequences of pairs are, whatever sequence numbers they use |
| InsertionOrdered.LinkedValid | minter/src/utils/insertion_ordered_map/mod.rs:8-25 | two indexes that are inverse to each other stand for a sequence of pairs with distinct keys |
| InsertionOrdered.PairsInjective | minter/src/utils/insertion_ordered_map/mod.rs:108-110 | the sequence of pairs determines the ordered map |
| Sweeps.Plan | minter/src/state/deposits/sweeps/mod.rs:111-158 | collecting by id, choosing the fee payer, sorting the others, laying out and adding up gives exactly the plan of the set of deposits |
| Sweeps.PlanIs | minter/src/state/deposits/sweeps/mod.rs:111-158 | in a plan the largest deposit, the smallest id among equals, pays 5000 lamports per deposit; its transfer comes first, less the fee; the others follow by falling amount and rising id; each takes its deposit down to 890880 lamports, from the address of the deposit |
| Sweeps.CanPlanIff | minter/src/state/deposits/sweeps/mod.rs:111-158 | planning is possible exactly when some deposit covers the fee of the whole sweep above the rent threshold |
| Sweeps.CollectById | minter/src/state/deposits/sweeps/mod.rs:111-158 | deposits with distinct ids are collected into the map of the batch |
| Sweeps.ChooseFeePayer | minter/src/state/deposits/sweeps/mod.rs:122-126 | no deposit has a larger balance than the fee payer, and none of the same balance has a smaller id |
| Sweeps.SortOthers | minter/src/state/deposits/sweeps/mod.rs:127-134 | the other deposits are listed once each, by falling balance and by rising id where balances are equal |
| Sweeps.OrderUnique | minter/src/state/deposits/sweeps/mod.rs:111-158 | there is only one such order of a set of deposits |
| Sweeps.PlanIgnoresOrder | minter/src/state/deposits/sweeps/mod.rs:111-158 | the plan does not depend on the order in which the deposits are given |
| Sweeps.PlanConserves | minter/src/state/deposits/sweeps/mod.rs:111-158 | what the main address receives plus the fee is the sum of the sweepable amounts |
| Sweeps.FeeShareIsOneSignature | minter/src/state/deposits/sweeps/mod.rs:330-351 | the rounded-up share of the planned fee is the fee of one signature, whatever the size of the batch |
| Sweeps.MintsAre | minter/src/state/deposits/sweeps/mod.rs:330-357 | each mint is the balance of its deposit less 890880, 5000 and the fee recorded with it, in the order of the ids; there are none exactly when some deposit does not cover these; the deposit fees are the sum of the recorded ones |
| Sweeps.MintsConserve | minter/src/state/deposits/sweeps/mod.rs:330-357 | mints and deposit fees add up to exactly the expected receipt |
| Settlement.Recover | minter/src/state/deposits/sweeps/mod.rs:163-178 | a submitted message is accepted exactly when it is the one the plan builds, and gives back that plan |
| Settlement.MessageDeterminesPlan | minter/src/state/deposits/sweeps/mod.rs:198-208 | a sweep message determines the destination, every source, every amount and the expected receipt |
| Settlement.SweepFitsIff | minter/src/sol_transfer/mod.rs:44-141 | a sweep of n deposits takes 102 + 113 n bytes, so that ten deposits fit and eleven do not |
| Settlement.ExecutionEffect | minter/src/state/deposits/sweeps/mod.rs:198-208 | the planned message executes exactly when every source can pay, and then moves exactly the planned amounts |
| Settlement.SettleIff | minter/src/state/deposits/sweeps/mod.rs:232-321 | settling succeeds exactly when the planned message was executed without error, at a fee within the planned one, with the effect of its execution, leaving every source rent-exempt |
| Settlement.SettleOutcome | minter/src/state/deposits/sweeps/mod.rs:232-321 | a report is retried exactly when its metadata is missing or the planned message comes with incomplete balances; a failure, another message and a fee too high are quarantined under their names, exactly then; any other report settles or is quarantined for the first transfer, the receipt or the fees that are not as planned |
| Settlement.EffectConserves | minter/src/state/deposits/sweeps/mod.rs:232-321 | what left the deposit addresses is what the main address received plus the fee charged |
| Settlement.EveryExecutionSettles | minter/src/state/deposits/sweeps/mod.rs:232-321 | every execution of the planned message, with late extra deposits and a lower fee allowed, settles |
| Settlement.MissingReportsOnlyDelay | minter/src/state/deposits/sweeps/mod.rs:232-321 | whatever parts of a truthful report are missing, an execution of the planned message is never quarantined: it settles once the report is complete and is retried until then |
| NoncePool.DurableNoncePool.AddAccounts | minter/src/state/nonce_pool/mod.rs:28-42 | all addresses are added as free accounts, or none when one is repeated or already in the pool |
| NoncePool.DurableNoncePool.Bind | minter/src/state/nonce_pool/mod.rs:50-63 | a free account is bound and the value recorded as seen |
| NoncePool.DurableNoncePool.Free | minter/src/state/nonce_pool/mod.rs:69-77 | a bound account is freed and keeps the values it has seen |
| ScanSchedule.ScheduleShape | minter/src/state/watchlist/mod.rs:75-82 | the schedule is strictly increasing and consists of 33 slots within the window: at 0, 60, 120, 240, 360, 600, 900, 1200, 1500 and 1800 seconds, and then every hour |
| ScanSchedule.NextScanIs | minter/src/state/watchlist/mod.rs:63-71 | the next scan is the earliest slot after the last scan and inside the window, and there is none exactly when no such slot is left |
| ScanSchedule.DueScanUsesASlot | minter/src/state/watchlist/mod.rs:63-154 | a scan that was due uses up at least one slot, and a late one does not move the slots after it |
| ScanSchedule.ProgressCounts | minter/src/state/watchlist/mod.rs:149-154 | the progress of a registration counts its scans and keeps the time of the last one, and nothing else of it changes |
| ScanSchedule.AtMost33Scans | minter/src/state/watchlist/mod.rs:63-154 | any run that scans a registration only when due scans it at most 33 times |
| DepositBook.CreditCovers | minter/src/state/deposits/mod.rs:320-367 | the assertions of a credit imply that the mints name every deposit of the sweep exactly once |
| DepositLifecycle.QueueAgrees | minter/src/state/deposits/mod.rs:204-227 | queueing adds one new id in stage queued and keeps every index in agreement |
| DepositLifecycle.SweepAgrees | minter/src/state/deposits/mod.rs:232-257 | sweeping moves exactly the given deposits from queued to swept |
| DepositLifecycle.DropAgrees | minter/src/state/deposits/mod.rs:260-276 | dropping a swept group never traps and moves exactly its deposits to dropped, releasing their accounts |
| DepositLifecycle.FinalizeAgrees | minter/src/state/deposits/mod.rs:310-316 | finalizing a swept group never traps and moves exactly its deposits to finalized |
| DepositLifecycle.QuarantineSweepAgrees | minter/src/state/deposits/mod.rs:280-300 | quarantining a sweep moves exactly its deposits to quarantined and keeps their accounts reserved |
| DepositLifecycle.CreditAgrees | minter/src/state/deposits/mod.rs:320-367 | crediting moves every deposit of the sweep to the pending mints |
| DepositLifecycle.MintAgrees | minter/src/state/deposits/mod.rs:369-383 | minting a pending mint never traps, moves exactly that deposit to minted and releases its account |
| DepositLifecycle.QuarantineMintAgrees | minter/src/state/deposits/mod.rs:385-400 | quarantining a pending mint moves exactly that deposit and keeps its account reserved |
| DepositLifecycle.ExactlyOneStage | minter/src/state/deposits/mod.rs:40-72 | each id below the next one is listed in exactly one stage, and no other id is listed |
| DepositLifecycle.StatusAgrees | minter/src/state/deposits/mod.rs:164-202 | the status is the unique stage of the deposit, with the sweep that took it or the block and amount it was minted with, and unknown exactly from the next id on |
| DepositLifecycle.InFlightNeverTraps | minter/src/state/deposits/mod.rs:128-141 | looking up the deposit in flight never traps, finds one exactly when some unminted and undropped deposit holds the account, and tells processing from quarantined |
| DepositStages.Deposits.Queue | minter/src/state/deposits/mod.rs:204-227 | performs the queue transition in place |
| DepositStages.Deposits.SweepDeposits | minter/src/state/deposits/mod.rs:232-257 | takes the deposits out of the queue, recovers the plan and records it under the signature |
| DepositStages.Deposits.DropSwept | minter/src/state/deposits/mod.rs:260-276 | performs the drop transition deposit by deposit |
| DepositStages.Deposits.FinalizeSwept | minter/src/state/deposits/mod.rs:310-316 | performs the finalize transition in place |
| DepositStages.Deposits.QuarantineSweep | minter/src/state/deposits/mod.rs:280-300 | performs the sweep quarantine deposit by deposit |
| DepositStages.Deposits.CreditSweep | minter/src/state/deposits/mod.rs:320-367 | performs the credit mint by mint and returns the credited sweep |
| DepositStages.Deposits.Mint | minter/src/state/deposits/mod.rs:369-383 | performs the mint transition in place |
| DepositStages.Deposits.QuarantinePendingMint | minter/src/state/deposits/mod.rs:385-400 | performs the mint quarantine in place |
| LiveState.FromInitArgs | minter/src/state/mod.rs:886-938 | a state is built exactly when the nonce accounts parse, none is repeated and the parameters are valid |
| LiveState.ParseNonceAccounts | minter/src/state/mod.rs:873-884 | parses all addresses or none |
| LiveState.GuardErrorFor | minter/src/guard/mod.rs:55-70 | a guard is granted exactly when the account holds none and at most a hundred are held with it, and refused as already processing exactly when the account holds one |
| LiveState.State.AcquireDepositGuard | minter/src/guard/mod.rs:55-70 | takes the guard of the account or reports why not, changing nothing else |
| LiveState.State.AcquireWithdrawalGuard | minter/src/guard/mod.rs:55-70 | takes the guard of the account or reports why not, changing nothing else |
| LiveState.State.ReleaseDepositGuard | minter/src/guard/mod.rs:73-77 | drops the guard of that account alone, after which it can be taken again unless a hundred others are held |
| LiveState.State.ReleaseWithdrawalGuard | minter/src/guard/mod.rs:73-77 | drops the guard of that account alone, after which it can be taken again unless a hundred others are held |
| LiveState.State.CacheMinterPublicKey | minter/src/state/mod.rs:149-155 | records the key once; the same key again changes nothing |
| LiveState.State.ProcessAcceptedWithdrawal | minter/src/state/mod.rs:568-581 | performs the acceptance of a withdrawal in place |
| LiveState.State.ProcessCreditedSweep | minter/src/state/mod.rs:465-483 | credits the deposits, collects the fees and adds the receipt to the balance |
| LiveState.State.ProcessTransactionCreated | minter/src/state/mod.rs:629-671 | binds the account, moves the requests one by one, and takes their amounts and the fee off the balance |
| LiveState.State.BoundWithdrawalMessage | minter/src/state/mod.rs:736-773 | rebuilds the one message the binding determines |
| LiveState.State.SendNonceWithdrawal | minter/src/state/mod.rs:673-734 | moves exactly the requests bound to the advanced account to the sent bucket |
| LiveState.State.ProcessTransactionSubmitted | minter/src/state/mod.rs:583-627 | performs the submission of a sweep or a withdrawal in place |
| LiveState.State.ProcessTransactionSucceeded | minter/src/state/mod.rs:775-801 | finalizes the sweep or frees the account, and moves the withdrawals of the signature to successful |
| LiveState.State.ProcessTransactionFailed | minter/src/state/mod.rs:803-830 | drops the sweep or frees the account, and moves the withdrawals of the signature to failed |
| LiveState.State.ProcessTransactionExpired | minter/src/state/mod.rs:235-256 | forgets the sweep and drops its deposits |
| LiveState.State.Upgrade | minter/src/state/mod.rs:372-442 | succeeds exactly when the new parameters are valid and the new accounts parse, are new and receive no incomplete withdrawal |
| LiveState.State.Reconfigure | minter/src/state/mod.rs:385-405 | each given argument replaces its own parameter and no other changes |
| LiveState.State.ApplyStateTransition | minter/src/state/audit.rs:17-101 | applies any event that does not trap exactly as the transition functions say |
| LiveState.ReplayEvents | minter/src/state/audit.rs:103-119 | replaying a log in a loop gives the state the log stands for |
| WithdrawalRecords.AcceptBuckets | minter/src/state/mod.rs:568-581 | a request with a fresh burn index enters the pending bucket and no other |
| WithdrawalRecords.CreateBuckets | minter/src/state/mod.rs:629-671 | creating moves exactly the given requests from pending to created, unchanged |
| WithdrawalRecords.SendBuckets | minter/src/state/mod.rs:673-734 | sending moves exactly the bound requests from created to sent, unchanged and with the signature |
| WithdrawalRecords.OutcomeBuckets | minter/src/state/mod.rs:775-830 | an outcome moves exactly the withdrawals of the signature from sent to successful or failed |
| WithdrawalRecords.CreateListed | minter/src/state/mod.rs:629-671 | the burn lists of created transactions keep partitioning the created requests |
| WithdrawalRecords.SendListed | minter/src/state/mod.rs:673-734 | sending removes one burn list and exactly its requests from that partition |
| WithdrawalRecords.StatusIsStage | minter/src/state/mod.rs:501-524 | an accepted withdrawal is in exactly one of the five buckets and its status is the stage it reached |
| MinterRuns.InitialInv | minter/src/state/mod.rs:886-938 | the global invariant holds after initialization |
| MinterRuns.EventKeeps | minter/src/state/audit.rs:17-101 | every event keeps the global invariant: deposit stages, withdrawal buckets, bound nonce accounts, submitted, succeeded and failed signatures, and no deposit or withdrawal moves back |
| MinterRuns.UpgradeKeeps | minter/src/state/mod.rs:372-383 | an upgrade keeps the global invariant |
| MinterRuns.RemoveNonces | minter/src/state/mod.rs:775-830 | the account of a submitted withdrawal is bound, and freeing it keeps the bound accounts the disjoint union of created and in-flight ones |
| MinterRuns.OutcomeNeverTraps | minter/src/state/mod.rs:775-830 | recording success or failure of a submitted transaction never traps, and expiry is recordable exactly for sweeps |
| MinterRuns.ReachableInv | minter/src/state/audit.rs:103-119 | the global invariant holds in every state a log of admissible events replays to |
| MinterRuns.DepositsAreInOneStage | minter/src/state/deposits/mod.rs:164-202 | in every run each deposit id is in exactly one stage, and the lookup by account never traps |
| MinterRuns.WithdrawalsAreInOneBucket | minter/src/state/mod.rs:501-524 | in every run each accepted withdrawal is in exactly one bucket, with the status of its stage |
| Replaying.CanIgnores | minter/src/state/audit.rs:17-101 | whether an event traps does not depend on guards, tasks or the watchlist |
| Replaying.EraseCommutes | minter/src/state/audit.rs:17-101 | erasing the transient fields commutes with every event |
| Replaying.ReplayRefinesLive | minter/src/state/audit.rs:11-119 | in every live run of events, transient changes and restarts, replaying the log gives the live state on every persisted field |
| Replaying.ClockReadsMatter | minter/src/state/audit.rs:11-14 | an event logged at another time than it was applied at replays to a different state |
| Settings.AdmittedViable | minter/src/state/mod.rs:309-370 | a deposit admitted under valid parameters stays sweepable and mintable under any later ones |
| Settings.ViablePlans | minter/src/state/deposits/sweeps/mod.rs:111-158 | one to ten such deposits can always be planned |
| Settings.ViableMints | minter/src/state/deposits/sweeps/mod.rs:330-351 | their plan mints at least one lamport for each |
| Settings.ViableDelivers | minter/src/state/deposits/sweeps/mod.rs:111-158 | their plan delivers at least the rent threshold to the main address |
| Settings.EventKeepsSound | minter/src/state/mod.rs:309-383 | every event, upgrades included, keeps the parameters valid and every deposit sweepable |
| Settings.QueuedDepositsCanBeSwept | minter/src/state/mod.rs:309-383 | across every sequence of initialization and upgrades, any one to ten queued deposits can be swept together with these guarantees |
| Settings.ValidateIs | minter/src/state/mod.rs:309-370 | parameters are refused with the error of the first of the seven constraints they violate, and for no other reason |
| Settings.ParametersAreLastGiven | minter/src/state/mod.rs:372-405 | in every run each of the seven parameters is the one last given for it, at initialization or by an upgrade, and the ledger is the one given at initialization |
| EventTimes.EventStamps | minter/src/state/audit.rs:17-101 | an event gives the time it is logged with to the deposit it queues, the withdrawal it accepts or the transaction it submits, and changes no other time |
| EventTimes.TimesAreEventTimes | minter/src/state/mod.rs:568-734 | in every run the times kept for deposits, withdrawals and their transactions are the times at which they were queued, accepted and submitted |
| TimerRounds.TakeFromQueue | minter/src/deposit/sweep/timer.rs:93-112 | a round is the longest prefix of at most a hundred queued ids, cut into groups of ten, and tells whether deposits are left |
| RoundRuns.TakenIsOpen | minter/src/deposit/sweep/timer.rs:93-112 | the groups of a round are disjoint sets of one to ten queued deposits |
| TimerRounds.QueueStays | minter/src/deposit/sweep/timer.rs:32-83 | while a round awaits, no event but its own takes a deposit of the round out of the queue or changes it |
| TimerRounds.RecordSweepNeverTraps | minter/src/deposit/sweep/timer.rs:123-152 | recording a signed sweep of the round never traps |
| TimerRounds.RecordSweepKeeps | minter/src/deposit/sweep/timer.rs:123-152 | the other batches of the round stay queued |
| TimerRounds.FinalizedStays | minter/src/deposit/sweep/finalize/mod.rs:28-108 | while a round awaits, no event but its own changes a finalized sweep of the round |
| TimerRounds.SettlementNeverTraps | minter/src/deposit/sweep/finalize/mod.rs:28-108 | whatever outcome is reported for a sweep of the round, recording it never traps |
| TimerRounds.SettlementKeeps | minter/src/deposit/sweep/finalize/mod.rs:28-108 | the other sweeps of the round stay finalized |
| TimerRounds.CreditNeverTraps | minter/src/state/mod.rs:465-483 | crediting a settled sweep never violates an assertion |
| TimerRounds.FinalizedSweepSettles | minter/src/deposit/sweep/finalize/mod.rs:28-108 | in every sound state, any execution of a finalized sweep within the planned fee settles |
| RoundRuns.StepKeeps | minter/src/deposit/sweep/timer.rs:32-152 | every step of sweep rounds, credit rounds, guards, other events and restarts keeps what the rounds hold queued or finalized |
| RoundRuns.SweepRoundsNeverTrap | minter/src/deposit/sweep/timer.rs:32-152 | in every run every batch a sweep round still holds can be planned, and recorded under any fresh signature |
| RoundRuns.CreditRoundsNeverTrap | minter/src/deposit/sweep/finalize/mod.rs:28-108 | in every run, whatever is reported for a sweep a credit round still holds, recording its settlement never traps |
| RoundRuns.SettlementMeans | minter/src/deposit/sweep/finalize/mod.rs:78-105 | a settled sweep makes every deposit a pending mint of its balance less rent threshold, one signature fee and recorded fee, and adds the delivered amount to the balance; a quarantined one quarantines every deposit; one to be fetched again stays |
| RoundRuns.OneRoundAtATime | minter/src/guard/mod.rs:113-130 | in every run, between two rounds of a timer the first one has dropped its guard or an upgrade has |
| RoundRuns.SecondRoundTraps | minter/src/guard/mod.rs:113-130 | without the guard, what one round has recorded a second round that took the same deposits cannot record |
| Solvency.EventKeepsAccounts | minter/src/state/mod.rs:465-671 | every event keeps the balance exact and every claim backed by what was received |
| Solvency.BalanceIsExact | minter/src/state/mod.rs:465-671 | over every run the balance is what sweeps delivered less the transfers and fees of created withdrawal transactions |
| Solvency.BurnsCover | minter/src/state/mod.rs:629-671 | when each request keeps a transaction fee and each transaction serves a request, transfers and fees never exceed the burns they serve |
| Solvency.Solvent | minter/src/state/mod.rs:465-671 | over every run the balance plus all burns covers minted, pending and unresolved mints, burns still pending and collected fees |
| FeeSolvency.SettledInFull | minter/src/deposit/sweep/finalize/mod.rs:28-108 | the mints of a credit that comes from a settlement and the fees of its deposits add up to exactly what the sweep delivered |
| FeeSolvency.BackedInFull | minter/src/state/mod.rs:465-483 | in every run whose credits come from settlements, everything received is minted, owed or collected as fees |
| FeeSolvency.SolventIff | minter/src/state/mod.rs:465-671 | such a run is solvent exactly when the burns served cover their transfers and the fees of the created transactions |
| FeeSolvency.StepBooked | minter/src/withdraw/mod.rs:44-105 | every step of calls, ledger, events and upgrades keeps the accounts exact, fully backed, and each request charged the fee in force |
| FeeSolvency.SolventExactlyWhen | minter/src/withdraw/mod.rs:82-98 | in every run under a fixed fee the minter is solvent exactly when the fee times the requests served covers the cost of the transactions created |
| FeeSolvency.CoveringFeeIsSolvent | minter/src/withdraw/mod.rs:82-98 | a withdrawal fee that covers a transaction keeps every run solvent |
| InsolventRuns.LowFeeIsInsolvent | minter/src/state/mod.rs:309-370 | under any valid parameters with a lower withdrawal fee, a run with one credited and minted deposit and one transaction for one request is insolvent |
| InsolventRuns.SolventIffFeeCovers | minter/src/state/mod.rs:309-370 | for any valid parameters, every run under their withdrawal fee is solvent throughout if and only if that fee covers the cost of a transaction |
| Batches.WithdrawalBatches.Next | minter/src/state/mod.rs:961-985 | yields the next requests in order, at most ten, as many as the balance left pays for with one fee, or none |
| Batches.CollectBatches | minter/src/state/mod.rs:538-543 | the batches concatenate to the longest affordable prefix of the pending requests, all but the last full, and leave the rent threshold |
| Batches.FirstMissIsLongest | minter/src/state/mod.rs:961-985 | stopping at the first request that does not fit gives the longest affordable prefix |
| Batches.PrefixCostGrows | minter/src/state/mod.rs:961-985 | a longer prefix never costs less |
| Batches.LongestUnique | minter/src/state/mod.rs:961-985 | the longest affordable prefix is unique |
| NonceChain.UnseenReadIsCurrent | minter/src/withdraw/mod.rs:216-269 | a value read from a free account and never bound before is the current one on chain, however far reads lag |
| NonceChain.AdvancedIffLanded | minter/src/state/nonce_pool/mod.rs:89-102 | whatever value of an account was read, it is classified as advanced exactly when the bound transaction has landed and the value is the current one |
| NonceChain.StaleMeansPast | minter/src/state/nonce_pool/mod.rs:89-102 | a stale reading is a value already used up |
| NonceChain.FreeMeansLanded | minter/src/state/nonce_pool/mod.rs:69-77 | every message ever signed for a free account has landed |
| NonceChain.OneMessagePerSlot | minter/src/state/nonce_pool/mod.rs:50-63 | no two different messages are ever signed for one value of one account |
| NonceChain.JoinKeeps | minter/src/state/nonce_pool/mod.rs:28-42 | accounts that join keep the pool in step with the chain |
| NonceChain.BindKeeps | minter/src/state/nonce_pool/mod.rs:50-63 | binding an unseen value read from a free account binds the current one |
| NonceChain.LandKeeps | minter/src/state/nonce_pool/mod.rs:89-102 | whatever lands is the transaction its account is bound to, and it lands once |
| NonceChain.FreeKeeps | minter/src/state/nonce_pool/mod.rs:69-77 | freeing a landed account never traps and keeps the pool in step |
| WithdrawalProtocol.RebuiltMessage | minter/src/withdraw/mod.rs:287-351 | rebuilding the message of a created transaction always gives the message it was bound to, and it fits |
| WithdrawalProtocol.CreateStep | minter/src/withdraw/mod.rs:216-269 | creating a transaction from a lagging read keeps the protocol invariant and binds the current value |
| WithdrawalProtocol.RecordNeverTraps | minter/src/withdraw/mod.rs:353-385 | recording the signature of a created transaction never traps |
| WithdrawalProtocol.RecordStep | minter/src/withdraw/mod.rs:353-385 | recording keeps the protocol invariant |
| WithdrawalProtocol.FinalizeNeverTraps | minter/src/monitor/withdrawals.rs:217-276 | recording the outcome of a withdrawal in flight never traps |
| WithdrawalProtocol.FinalizeStep | minter/src/monitor/withdrawals.rs:217-276 | finalizing a landed withdrawal with its outcome on chain keeps the protocol invariant |
| WithdrawalProtocol.ElsewhereStep | minter/src/state/audit.rs:17-101 | any event of anybody else keeps the protocol invariant |
| WithdrawalTasks.ReserveBatches | minter/src/withdraw/mod.rs:185-214 | reserves exactly the least of the free accounts, ten less the created transactions, and the groups of ten of the longest prefix of pending requests that the balance above 890880 lamports pays for; the i-th batch is the i-th group, on the i-th account, and all are disjoint, pending and paid for |
| WithdrawalTasks.PendingOldestFirst | minter/src/state/mod.rs:538-543 | the requests to be batched are all the pending ones, each once, by rising burn index |
| WithdrawalTasks.ReservesKept | minter/src/withdraw/mod.rs:185-214 | credits and every other event keep the reserves |
| WithdrawalTasks.CreateNeverTraps | minter/src/withdraw/mod.rs:216-269 | creating any reserved batch with an unseen value never traps or underflows, and leaves what the others need above the rent threshold |
| WithdrawalTasks.CreateKeepsOthers | minter/src/withdraw/mod.rs:216-269 | the other batches stay reserved, in whatever order they are created |
| WithdrawalTasks.CreateOneNeverTraps | minter/src/withdraw/mod.rs:216-269 | in every state of the protocol, creating a reserved batch never traps |
| WithdrawalTasks.RecordOneNeverTraps | minter/src/withdraw/mod.rs:353-385 | recording a signature for the snapshot taken before the await never traps |
| WithdrawalTasks.FinalizeOneNeverTraps | minter/src/monitor/withdrawals.rs:217-276 | recording the outcome of a withdrawal read as advanced never traps |
| WithdrawalTasks.ReadsAdvancedKeeps | minter/src/monitor/withdrawals.rs:170-209 | a withdrawal read as advanced has landed, from any value the account ever had |
| WithdrawalTasks.StepKeeps | minter/src/withdraw/mod.rs:137-385 | every step of minter and chain keeps the protocol invariant, lost signatures and restarts included |
| WithdrawalTasks.RunOk | minter/src/withdraw/mod.rs:137-385 | the protocol invariant holds throughout every run |
| WithdrawalTasks.PaidAtMostOnce | minter/src/state/mod.rs:629-734 | in every run each withdrawal is included on chain at most once, never while pending, and every message included transfers exactly the amounts of its requests, once each, to their destinations |
| WithdrawalTasks.SignedForOnce | minter/src/state/mod.rs:629-734 | in every run any two signed messages that serve the same withdrawal, or the same value of an account, are equal |
| WithdrawalTasks.SentWasSigned | minter/src/state/mod.rs:672-734 | in every run a withdrawal that was sent or has an outcome was signed for |
| WithdrawalTasks.RecordedOutcomeIsReal | minter/src/monitor/withdrawals.rs:170-276 | in every run a withdrawal recorded as successful was paid on chain exactly once, and one recorded as failed was included once and never paid |
| WithdrawalTasks.BoundIsCurrent | minter/src/state/nonce_pool/mod.rs:50-102 | in every run the value an account is bound to is current until its transaction lands, and every message signed for a free account has landed |
| MainAddress.WithdrawalCharge | minter/src/sol_transfer/mod.rs:83-116 | executing a withdrawal message takes its transfers and exactly one signature fee from the main address |
| MainAddress.CreateFunded | minter/src/state/mod.rs:629-671 | creating a transaction takes off the tracked balance exactly what its message costs on chain |
| MainAddress.StepFunded | minter/src/withdraw/mod.rs:137-385 | every step of minter and chain keeps what the bound messages cost equal to what was taken off the balance for them, and the balance above the rent threshold once a transaction exists |
| MainAddress.TrackedBalanceIsReal | minter/src/state/mod.rs:629-671 | in every run the tracked balance, what was taken on chain and what messages still to land may take never exceed what sweeps delivered |
| FundedLandings.SweptIsExecutable | minter/src/state/deposits/sweeps/mod.rs:111-158 | every recorded sweep pays the main address from distinct deposit addresses, fee payer first |
| FundedLandings.MoveKeeps | minter/src/state/mod.rs:465-483 | every step of the protocol, every executed sweep and every gift keeps what the main address holds and no sweep is credited twice |
| FundedLandings.MainAddressCovers | minter/src/state/mod.rs:629-671 | in every run the main address holds the tracked balance and everything the messages still to land may take |
| FundedLandings.LandingIsFunded | minter/src/withdraw/mod.rs:185-269 | in every run a withdrawal message that lands finds its transfers and its fee on the main address and leaves the rent threshold there |
| Memos.UintRoundTrip | libs/types/src/memo/mod.rs:116-120 | an unsigned integer decodes to itself and takes more than five bytes exactly beyond 32 bits |
| Memos.MemoRoundTrip | libs/types/src/memo/mod.rs:116-120 | a memo decodes to what was encoded |
| Memos.MemoIsCbor | libs/types/src/memo/mod.rs:10-120 | the bytes of a memo are the CBOR encoding of its variant indexes and fields |
| Memos.MemoInjective | libs/types/src/memo/mod.rs:116-120 | different memos have different encodings |
| Memos.MemoLength | libs/types/src/memo/mod.rs:10-49 | no memo exceeds 81 bytes, and one exceeds 80 exactly when its deposit id exceeds 32 bits |
| MintProtocol.AcceptedIsNew | minter/src/deposit/sweep/mint/mod.rs:175-178 | a ledger that remembers what it would accept again never accepts a transaction twice, at any time |
| MintProtocol.ArgsDiffer | minter/src/deposit/sweep/mint/mod.rs:180-189 | distinct deposits never send equal arguments |
| MintProtocol.BeyondWindowIff | minter/src/deposit/sweep/mint/mod.rs:175-178 | a mint is given up exactly when it is more than a day old, which is when a ledger whose clock is ahead by the permitted drift would reject it as too old |
| MintProtocol.AnswerMeans | minter/src/deposit/sweep/mint/mod.rs:98-173 | a block or a duplicate makes the deposit minted in that block, a definite rejection quarantines it with its claim, anything else leaves the state as it was |
| MintProtocol.SendKeeps | minter/src/deposit/sweep/mint/mod.rs:78-173 | every retry sends exactly what was sent before |
| MintProtocol.ResolvingNeverTraps | minter/src/deposit/sweep/mint/mod.rs:78-173 | recording a mint or a quarantine after the await never traps |
| MintProtocol.ClaimsStayed | minter/src/state/audit.rs:17-101 | no event of anybody else changes a pending mint |
| MintProtocol.StepKeeps | minter/src/deposit/sweep/mint/mod.rs:78-173 | every step of minter and ledger keeps the mint invariant, lost replies, trapped callbacks and restarts included |
| MintProtocol.MintedAtMostOnce | minter/src/deposit/sweep/mint/mod.rs:78-189 | in every run the ledger holds at most one mint per deposit, and exactly the recorded one of the recorded amount once it is minted |
| MintProtocol.BlocksAreRight | minter/src/deposit/sweep/mint/mod.rs:180-189 | in every run every block credits the account its deposit was queued for, carries a memo that decodes to the sweep that took the deposit and its id, and has the amount and the time of the credit of that sweep |
| MintProtocol.MintedStatusIsReal | minter/src/state/deposits/mod.rs:185-190 | in every run a deposit reported as minted was minted by the reported block and no other, for the reported amount |
| Backing.LedgerWithinClaims | minter/src/deposit/sweep/mint/mod.rs:78-173 | the ledger never holds more mints than the minter has recorded as minted, pending or unresolved |
| Backing.LedgerIsBacked | minter/src/state/mod.rs:465-671 | in every run of minter and ledger the balance plus all burns covers every mint on the ledger, burns still pending and collected fees |
| SweepExpiry.ExpiredIsDoomed | minter/src/monitor/mod.rs:182-187 | a sweep missing in a view no older than a height its blockhash is too old for was not executed and never will be |
| SweepExpiry.ExpiredIff | minter/src/monitor/mod.rs:182-187 | a blockhash has expired at a height exactly when neither that block nor a later one may hold its transaction |
| SweepExpiry.StatusBeforeHeightIsUnsafe | minter/src/monitor/mod.rs:76-141 | reading the statuses before the height would expire a sweep that was executed |
| SweepExpiry.ExpiringNeverTraps | minter/src/monitor/mod.rs:156-180 | recording expiry, success or failure of a checked sweep never traps |
| SweepExpiry.ExpireKeeps | minter/src/monitor/mod.rs:156-180 | a sweep recorded as expired was not executed and never will be, and recording it keeps the invariant |
| SweepExpiry.TiedOutcome | minter/src/monitor/mod.rs:100-131 | the deposits of a sweep are finalized or dropped as its transaction moved them or not |
| SweepExpiry.OutcomeStays | minter/src/monitor/mod.rs:182-187 | whether a sweep moved its lamports, once decided, never changes as blocks are added |
| SweepExpiry.StepKeeps | minter/src/monitor/mod.rs:76-141 | every step of monitor and chain keeps the expiry invariant |
| SweepExpiry.ExpiredNeverLands | minter/src/monitor/mod.rs:76-187 | in every run a sweep recorded as expired is not executed at any time, before or after |
| SweepExpiry.StatusIsReal | minter/src/monitor/mod.rs:76-187 | in every run the status of a deposit is true of the chain then and ever after: a dropped one was never moved by its sweep, a finalized, minted or quarantined one was |
| DepositCalls.StartNeverTraps | minter/src/deposit/sweep/mod.rs:31-86 | before its await a call never traps, and goes on only without a deposit in flight |
| DepositCalls.StartAnswers | minter/src/deposit/sweep/mod.rs:31-55 | a call is refused exactly when its account has one in progress or a hundred others have; it is answered with the deposit the account has in flight, as processing or as quarantined; and it goes on exactly when there is none and the key is known |
| DepositCalls.QueuedIsAdmitted | minter/src/deposit/sweep/mod.rs:56-86 | whatever a call or a scan queues is at or above the minimum in force, with a fee within the bound |
| DepositCalls.CallQueuesWhatItRead | minter/src/deposit/sweep/mod.rs:70-86 | a call queues the balance it has read under the next id, for the address of its account, without a fee, and leaves every other queued deposit alone |
| DepositCalls.ScanQueuesWhatItRead | minter/src/deposit/sweep/mod.rs:88-121 | a scan queues the balance it has read in the same way, with the automatic fee in force |
| DepositCalls.QueueNeverTraps | minter/src/deposit/sweep/mod.rs:31-121 | after its await a call never violates an assertion of the queue |
| DepositCalls.QueueTrapsIff | minter/src/deposit/sweep/mod.rs:96-121 | the assertion fires exactly when the account has a deposit in flight |
| DepositCalls.DocumentedScanTrapsIff | docs/src/development/design.md:176-176 | the scan as documented makes a call trap exactly when it queues a deposit for the account of the call |
| DepositCalls.ScanThenCallTraps | docs/src/development/design.md:176-176 | in every state with a watched account and room for a call there is an interleaving of the documented scan and a call in which the call traps |
| DepositCalls.AcceptedBalanceIsValid | minter/src/deposit/sweep/mod.rs:127-138 | the balance a call accepts covers the rent threshold |
| DepositCalls.StepKeeps | minter/src/deposit/sweep/mod.rs:31-86 | every step of calls, scans, registrations, events and upgrades keeps the invariant of the calls |
| DepositCalls.InterleavingsAreSafe | minter/src/deposit/sweep/mod.rs:31-121 | in every interleaving with scans that check the guard again after their await, at most a hundred calls hold a guard, none traps, no account has two deposits in flight, a watched account has none, and every deposit queued can be swept and minted |
| WithdrawCalls.CallAnswers | minter/src/withdraw/mod.rs:44-135 | a call goes on to its burn exactly when it passes nine checks, and is otherwise answered for the first one it fails |
| WithdrawCalls.AmountCoversFee | minter/src/withdraw/mod.rs:82-85 | a call that passed the minimum covers the fee in force when it resumes and the rent threshold on top |
| WithdrawCalls.ResumeNeverTraps | minter/src/withdraw/mod.rs:82-98 | a call that resumes after its burn traps neither on the fee nor on the burn index |
| WithdrawCalls.RequestKeepsFeeIff | minter/src/withdraw/mod.rs:82-98 | a recorded request keeps the cost of a transaction exactly when the withdrawal fee covers it |
| WithdrawCalls.PoolGrowth | minter/src/state/mod.rs:406-445 | an address that joins the pool is the destination of no incomplete withdrawal |
| WithdrawCalls.StepKeeps | minter/src/withdraw/mod.rs:44-135 | every step of calls, ledger, refusals, failed calls, late burns, events and upgrades keeps the invariant of the calls |
| WithdrawCalls.DestinationsAreSafe | minter/src/withdraw/mod.rs:107-126 | in every run no withdrawal pays to a reserved key or to the main address, no incomplete one to a nonce account, old or new, and each transfers at least the rent threshold |
| WithdrawCalls.CallsAlwaysComplete | minter/src/withdraw/mod.rs:44-105 | in every run at most a hundred calls are in progress, tokens are burned only while the pool has an account, and a burned call can always record its request with the fee it started with |
| WithdrawCalls.FeesAreKept | minter/src/withdraw/mod.rs:82-98 | in every run in which the withdrawal fee has always covered a transaction every accepted request keeps that cost |
| WithdrawCalls.BurnsAreConserved | minter/src/withdraw/mod.rs:60-98 | in every run the ledger burned what the accepted requests say and what the unrecorded burns burned |
| WithdrawCalls.LostIffInterrupted | minter/src/ledger/mod.rs:15-55 | in every run a burn is lost exactly when an upgrade or an error of the ledger call ended a call after its burn, or the ledger burned for a call that had so ended before |
| WithdrawCalls.EveryBurnIsRecordedIff | minter/src/withdraw/mod.rs:44-105 | in every run, while no call is in progress, the burns are exactly the accepted requests if and only if no burn was so interrupted |
| WithdrawCalls.UpgradeLosesBurn | minter/src/lifecycle.rs:23-33 | from every initial state with a nonce account there is a run in which an upgrade right after a burn leaves it unrecorded |
| WithdrawCalls.ErrorLosesBurn | minter/src/ledger/mod.rs:44-48 | there is such a run in which the ledger call fails after the burn |
| WithdrawCalls.LateBurnIsLost | minter/src/ledger/mod.rs:44-48 | there is such a run in which the ledger call fails and the ledger burns afterwards |
| TimedSizedMaps.WithinCapacity | minter/src/utils/timed_sized_map/mod.rs:128-157 | a map within its capacity stays so and is unchanged by a refused insertion |
| TimedSizedMaps.RefusalChangesIff | minter/src/utils/timed_sized_map/mod.rs:128-157 | a refused insertion changes the map exactly when the key is not live and some entry has expired |
| TimedSizedMaps.RefusalMayChange | minter/src/utils/timed_sized_map/mod.rs:128-157 | a map rebuilt beyond its capacity is changed by a refused insertion |
| TimedSizedMaps.LiveStays | minter/src/utils/timed_sized_map/mod.rs:128-157 | a live entry is never evicted or changed |
| TimedSizedMaps.EnqueueIndexed | minter/src/utils/timed_sized_map/mod.rs:254-259 | queueing a new key keeps entries and index in bijection |
| TimedSizedMaps.UnlistIndexed | minter/src/utils/timed_sized_map/mod.rs:200-211 | removing a key keeps them in bijection and leaves no empty bucket |
| TimedSizedMaps.DropBucketIndexed | minter/src/utils/timed_sized_map/mod.rs:179-197 | evicting a bucket keeps them in bijection |
| TimedSizedMaps.RebuildIsIdentity | minter/src/utils/timed_sized_map/mod.rs:94-228 | rebuilding a map from its entries by expiry gives identical entries and an identical index |
| TimedSizedMaps.TimedSizedMap.FromOrderedEntries | minter/src/utils/timed_sized_map/mod.rs:94-108 | rebuilds entries and index verbatim from entries with distinct keys |
| TimedSizedMaps.TimedSizedMap.InsertEntry | minter/src/utils/timed_sized_map/mod.rs:128-157 | admits, refuses or ignores an entry as the plain expiring map does, and returns exactly the evicted entries |
| TimedSizedMaps.TimedSizedMap.EvictExpired | minter/src/utils/timed_sized_map/mod.rs:179-197 | terminates, removes exactly the expired entries and returns each once |
| TimedSizedMaps.TimedSizedMap.Remove | minter/src/utils/timed_sized_map/mod.rs:200-211 | removes and returns the entry under a key, live or expired |
| TimedSizedMaps.LookupAfterInsert | minter/src/utils/timed_sized_map/mod.rs:128-167 | no lookup can tell whether expired entries were evicted: an insertion changes what is found under its own key only, if it is admitted, and the entry is then found through its clamped expiry |
| TimedSizedMaps.TimedSizedMap.UpdateValue | minter/src/utils/timed_sized_map/mod.rs:171-176 | changes the value of a live entry and not its expiry, and finds nothing to change otherwise |
| TimedSizedMaps.TimedSizedMap.IterByExpiry | minter/src/utils/timed_sized_map/mod.rs:220-228 | lists every entry once, by ascending expiry, in an order that rebuilds the map |
| Watchlists.Watchlist.Register | minter/src/state/watchlist/mod.rs:113-128 | registers for a full window, returns a live registration unextended, and is refused exactly when a thousand others are live |
| Watchlists.Watchlist.Get | minter/src/state/watchlist/mod.rs:131-134 | returns the live registration of an account with its next scan |
| Watchlists.Watchlist.Remove | minter/src/state/watchlist/mod.rs:136-138 | removes the registration of an account |
| Watchlists.Watchlist.DueNow | minter/src/state/watchlist/mod.rs:141-145 | returns exactly the live registrations whose next scan is due, each once, by ascending window end |
| Watchlists.Watchlist.RecordScan | minter/src/state/watchlist/mod.rs:149-154 | advances the progress of a live registration and changes nothing else |
| Watchlists.Watchlist.EvictExpired | minter/src/state/watchlist/mod.rs:157-159 | removes exactly the expired registrations and counts them |
| Watchlists.FreshIsDue | minter/src/state/watchlist/mod.rs:113-128 | a registration made now is live and due at once |

## Left out

- RPC, ledger and signer clients, cycles, logging and metrics: their outcomes appear as inputs of steps.
- Dashboard, HTTP endpoints, Candid types and the stable storage of events.
- Key derivation, signature schemes and base58: addresses and signatures are opaque values; an address
  that does not parse is modelled as such.
- Byte-level compilation of Solana messages: a message is its fee payer, instructions and blockhash, and
  its size is computed from the layout of the legacy format.
- The encoding of events: only the ledger memos are modelled byte by byte.
- The list of reserved account keys, which is a parameter of the destination check.
- Timer delays, retries and liveness: only safety is proved.
- The scan loop of the automatic flow, which the source does not contain yet: its watchlist, its schedule,
  its event and, as documented, its interleaving with calls are modelled.
- `master_key_name` and `solana_network`, which no transition reads or changes.
- MintProtocol.AcceptedIsNew: the ledger is modelled by its deduplication rule, not by the code of the
  ledger canister, because that code belongs to another repository.
- DepositStages.Deposits.Queue: the watchlist inside the deposits is modelled by its map of registrations;
  that the container behaves as such a map is proved in TimedSizedMaps and Watchlists.
