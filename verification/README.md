# Verification of the interim pool's money path

A Dafny model of the custodial CKB mining pool, and proofs about it. The model follows money from a mined block to
a payout: which income is believed (`Reconciler`), how a block's reward is divided (`Pplns`), how the division is
booked statement by statement (`Allocator`, `Pool`), and how balances are reserved, signed, sent and confirmed
(`Payouts`, `PayoutSweeps`, `PayoutWorker`; row by row in `PayoutEffects` and, for whole sweeps, `SweepProgress`). Around it stand the codecs the path depends on (`Bech32`, `Molecule`,
`CellbaseWitness`, `Merkle`), transaction planning (`Cells`, `TxPlan`), share evaluation (`Targets`, `JobRegistry`,
`ShareValidator`), event delivery (`Publisher`, `Ingest`) and block verdicts (`BlockTracker`).

## How it is built

- Transactions and single statements are functions on table values; separate lemmas say what each of them does without
  naming it, in rows, amounts and literal constants (`PayoutEffects`, `PplnsResults`, `PublishedTexts`, `Layouts`). Code that changes tables or fields step by step
  is also written as class methods with loops, each proved to have the effect of its function.
- `Pool` is a state machine over those functions: allocation runs, payout processes and the environment take steps in
  any order, and a run may stop between any two statements. `PoolRuns` proves one joint invariant;
  `PoolSolvency` and `PoolPayments` draw the conclusions over whole runs, and `SweepRuns` and `AllocationRuns` show
  that sweeps, allocations and reconciler ticks as they are written are runs of it.
- Node answers, clocks, row order, block states set by other services, the transaction builder and every choice made
  outside the modelled code are arguments or environment steps.

## Assumptions

- Database transactions and single statements are serial. Each statement outside a transaction is its own step.
- Row ids are different strings, so idempotency keys built from them are different exactly when their parts are
  (`Ledger.Key`). `ForfeitKeys` treats the order of row ids as arbitrary.
- Reconciler passes read and write in separate steps and may overlap, in `Reconciler` and in `Pool`.
- The configured fee lies between 0 and 10000 basis points in `Pool`; `PplnsProperties.OverchargedFee` shows why.
- Batch ids are new (uuids). Only transactions the pool has sent can be in the node's chain.
- A header hash commits to its block and a cellbase hash to its outputs (`Chain.HashesBind`). Blake2b, Eaglesong and
  secp256k1 are not part of this model; hashes are arbitrary functions, injective only where a contract says so.
- A chain never replaces a block with a stated number of blocks on top (`Chain.Final`), wherever a lemma asks for it.
- capVerdict is reduced to its two cap branches, because createBatch hands it whole balances of distinct miners; its
  remaining checks cannot fail there, except for the thrown error on a negative amount, which is kept.

## Where the code and its comments differ

- src/accounting/allocator.js:3-8 says allocation is one transaction; its statements commit one by one, and the model
  follows the statements. A thrown error after the guard leaves the block ALLOCATED without an allocation
  (`Allocator.Tables.AllocateMatureBlock`).
- src/accounting/allocator.js:81-84 calls a confirmed receipt immutable; an overlapping pass can void it
  (`OverlappingPasses.OverlapVoidsConfirmed`, `Reconciler.VoidsConfirmedIff`), and the pool then owes more than it
  received (`PoolScenarios.OverlapCausesInsolvency`, `PoolSolvency.BackingKeptIff`).
- src/wallet/payout-worker.js:171-174 and 190-193 say a new credit gives a forfeiture a different key; the key names
  the largest random row id and need not change (`ForfeitKeys.LaterCreditStranded`).
- src/stratum/username.js:100 is meant to reject mixed case and rejects none (`Bech32Properties.CaseIsIgnored`).
- src/accounting/block-tracker.js:29-30 says comparing epoch numbers never advances maturity; it can be early by part
  of an epoch (`BlockTracker.MatureEarlyIff`).
- src/accounting/ingest.js:5-7 reads as if redelivery repaired every failure; an event registered before a failed
  transaction is lost (`Ingest.LostForGood`).
- src/accounting/block-service.js:7-8 says block rows are guarded by state transitions; the tracker's updates name the
  row only, and a tick that overlaps another one can take an allocated row back to MATURE
  (`BlockTracker.AllocatedTakenBack`, `BlockTracker.OverwritesIff`).
- src/wallet/tx-builder.js:306-309 aims to avoid a dust remainder becoming fee; beyond 200 inputs it can
  (`TxPlan.FullRemainderIff`).
- src/wallet/payout-worker.js:479 says only a committed transaction becomes PAID; it is booked at depth zero and stays
  booked when a reorganisation drops it (`PoolScenarios.ReorganisationTakesBack`, `PoolPayments.HonestRunIff`).

## Model

| member | source | states |
|---|---|---|
| PoolRuns.RunKeeps | src/wallet/payout-worker.js:238-588 | The joint invariant of receipts, allocation, ledger, payout tables and sent transactions holds in every state of every run, with a crash between any two statements, overlapping reconciler passes and any node answers |
| PoolSolvency.OwedAtMostInEveryRun | src/wallet/payout-worker.js:62-80 | In every reachable state CONFIRMED + PENDING_PAYOUT + PAID + POOL_FEE + ROUNDING is at most the confirmed live income plus the rewards of allocations whose confirmed receipt has been voided since |
| PoolSolvency.SolventUnlessOvertaken | src/wallet/payout-worker.js:62-80 | In every run in which no reconciler pass overtakes an allocation, those liabilities are at most the confirmed live income in every state, so the gate never refuses |
| PoolSolvency.SolventWithoutOverlap | src/wallet/reconciler.js:130-175 | The same in every run in which each pass writes while the receipt it had read is still as read |
| PoolSolvency.BackingKeptIff | src/wallet/reconciler.js:160-175 | All divided receipts stay confirmed and live through a step exactly when the step is not a write of a pass that had read one of them unconfirmed and under another payout transaction |
| PoolSolvency.BackingLostIff | src/wallet/reconciler.js:160-175 | One write ends the backing of one reward exactly when it withdraws the block's confirmed receipt |
| PoolScenarios.OverlapCausesInsolvency | src/wallet/reconciler.js:145-175 | A run from the start, within what the node may answer, in which an overlapping pass voids the receipt of a settled block: the ledger owes 1 and 0 was received |
| PoolSolvency.BlockBooksInEveryRun | src/accounting/allocator.js:72-191 | In every reachable state a block's posted rows are a prefix of one allocation of a receipt confirmed for it and sum to at most it; SETTLED_TO_LEDGER means all of them, summing to all of it |
| PoolSolvency.BooksStayClosed | src/accounting/allocator.js:134-187 | Once an allocation row exists and its run has ended, no later step posts for that block, also not after the row was pushed back to MATURE and run again |
| PoolSolvency.NothingMorePosted | src/accounting/allocator.js:92-98 | One step of that: taking the guard again and meeting the existing allocation row changes no ledger row |
| PoolSolvency.AuditPassesIff | src/accounting/ledger.js:35-60 | When exactly the conservation audit passes, in every reachable state, ALLOCATED or settled: while the receipt is the one divided, exactly when all missing rows are over nothing, always once settled; after another receipt replaced it, exactly when the missing rows make up the difference; without an allocation row, exactly when the receipt is over nothing |
| PoolPayments.OneTransactionPerBatch | src/wallet/payout-worker.js:407-460 | Between any two moments of any run a batch has at most one transaction ever handed to the node, handed over once, and its hash is the one saved in the batch row |
| PoolPayments.ChainAgreesInEveryRun | src/wallet/payout-worker.js:331-588 | For every miner, in every run with arbitrary reorganisations: delivered on chain = PAID + under way - lost, hence at most PAID + PENDING_PAYOUT and at most all credits; nothing is lost exactly when the transaction of every positive CONFIRMED item of the miner is on the chain |
| PoolPayments.PaidIsDelivered | src/wallet/payout-worker.js:480-588 | In every run of truthful steps each miner has received between PAID and PAID + PENDING_PAYOUT |
| PoolPayments.ReorganisationLosesPayments | src/wallet/payout-worker.js:513-553 | Confirmation acts at any depth: from every reachable state with PAID above zero a reorganisation leaves delivered below PAID |
| PoolScenarios.ReorganisationTakesBack | src/wallet/payout-worker.js:480-576 | A run from the start through income, allocation, payout and a truthful 'committed' answer, after which everything PAID is delivered, until a reorganisation drops the transaction: PAID 1, delivered 0 |
| PoolPayments.BalancesInEveryRun | src/wallet/payout-worker.js:176-404 | In every reachable state each miner's PENDING_PAYOUT is the sum of RESERVED and BROADCAST items, PAID that of CONFIRMED items, CONFIRMED is not negative, and the three add up to credits minus forfeitures |
| PoolPayments.HeldReservesNothing | src/wallet/payout-worker.js:234-305 | In every reachable state a HELD item has no reservation row |
| PoolPayments.HonestStepIff | src/wallet/payout-worker.js:493-553 | The transactions of CONFIRMED batches stay on the chain through a step exactly when the step is truthful: a 'committed' answer the pool can act on names a transaction on the chain, and a reorganisation drops none of a CONFIRMED batch |
| PoolPayments.HonestRunIff | src/wallet/payout-worker.js:480-588 | In every run they have been on the chain at every moment exactly when every step was truthful |
| PoolAllocation.SavePlanKeepsAlloc | src/accounting/allocator.js:134-148 | Inserting the allocation row under ON CONFLICT DO NOTHING keeps one plan per block, each dividing exactly its confirmed receipt |
| PoolAllocation.PostNextKeepsAlloc | src/accounting/allocator.js:150-187 | Posting the next row, or setting the final state, keeps posted rows a prefix of the plan and SETTLED rows complete |
| PoolAllocation.NextIsNew | src/accounting/ledger.js:10-21 | A plan's next row is never in the ledger yet, so ON CONFLICT never swallows it |
| PoolAllocation.PlanRows | src/accounting/allocator.js:150-186 | An allocation's rows carry different idempotency keys and add up to the receipt |
| PoolAllocation.IncomeKeepsAlloc | src/wallet/reconciler.js:130-175 | Whatever a reconciler pass writes, however stale, every allocation keeps dividing a receipt that was confirmed for its block, and the rest of the allocation invariant holds |
| PoolAllocation.EntriesAre | src/accounting/allocator.js:150-186 | An allocation's ledger rows one by one: a CONFIRMED credit for each line in order, then the pool fee, then a positive rounding, each under its own key |
| PoolAllocation.RewardIff | src/accounting/allocator.js:60-70 | A block's reward is read exactly when it has a confirmed receipt that is not voided, and is the amount of one |
| PoolAllocation.IncomeCounts | src/wallet/payout-worker.js:62-80 | The solvency gate counts exactly the amounts of confirmed receipts that are not voided |
| PoolPayouts.SaveKeepsPay | src/wallet/payout-worker.js:428-435 | Saving the hash keeps the protocol state consistent: at most one process may send for a batch, and only after its hash was saved |
| PoolPayouts.BroadcastKeepsPay | src/wallet/payout-worker.js:437-440 | Handing the transaction to the node happens at most once per batch |
| PoolPayouts.SignsWholeBatch | src/wallet/payout-worker.js:408-427 | The signed transaction pays every item of the batch, with the item amounts |
| PayoutSteps.CreateBatchKeepsInv | src/wallet/payout-worker.js:238-305 | Creating a batch, reserved or held, keeps balances, item states, hashes and keys consistent |
| PayoutSteps.ReserveReleasedKeepsInv | src/wallet/payout-worker.js:331-404 | Reserving a released batch, or parking it again, keeps them consistent |
| PayoutSteps.SaveBuiltKeepsInv | src/wallet/payout-worker.js:428-435 | Saving a built batch keeps them consistent, tx_hash unique included |
| PayoutSteps.MarkBroadcastKeepsInv | src/wallet/payout-worker.js:442-457 | Recording a broadcast keeps them consistent |
| PayoutSteps.MarkSeenKeepsInv | src/wallet/payout-worker.js:494-511 | Seeing a pending transaction keeps them consistent |
| PayoutSteps.CommitConfirmedKeepsInv | src/wallet/payout-worker.js:515-576 | Booking a committed transaction moves exactly the items' amounts from PENDING_PAYOUT to PAID and keeps the rest consistent |
| PayoutSteps.ForfeitOneKeepsInv | src/wallet/payout-worker.js:176-232 | A forfeiture moves one confirmed balance to the pool fee and keeps the rest consistent |
| PayoutSteps.ApproveKeepsInv | src/accounting/poolctl.js:453-467 | An operator's release of a HELD batch keeps the payout tables consistent |
| PayoutEffects.ProposeEffect | src/wallet/payout-worker.js:238-305 | Refused exactly when CONFIRMED + PENDING_PAYOUT exceed the income or no candidate suffices, and then nothing changes; otherwise the first mention of each sufficient candidate, at most maxItems looked at, becomes an item over its whole balance, reserved within both caps and HELD beyond one of them |
| PayoutEffects.ReleaseEffect | src/wallet/payout-worker.js:331-404 | A released batch gets all its HELD items reserved, or waits while the pool is insolvent, or goes back to HELD and unreleased when a balance no longer suffices; an unreleased one goes back to HELD |
| PayoutEffects.ApproveEffect | src/accounting/poolctl.js:453-467 | Approval releases exactly the HELD batch it names, and the batch's next turn reserves every item of it, waits, or parks it again, each under its exact condition |
| PayoutEffects.SaveEffect | src/wallet/payout-worker.js:428-435 | The batch becomes BUILT under its hash exactly when it was RESERVED and no batch has that hash |
| PayoutEffects.BroadcastEffect | src/wallet/payout-worker.js:442-457 | RESERVED items of the batch become BROADCAST, and the batch does if it was BUILT; nothing else changes |
| PayoutEffects.SeenEffect | src/wallet/payout-worker.js:494-511 | An open batch and its RESERVED items become BROADCAST; any other is left alone |
| PayoutEffects.CommitEffect | src/wallet/payout-worker.js:515-576 | An open batch becomes CONFIRMED with all its items: PAID and PENDING_PAYOUT rows over each amount and one TX_FEE row over the derived fee, or else the saved one; with neither nothing changes |
| PayoutEffects.ForfeitEffect | src/wallet/payout-worker.js:176-232 | A positive balance moves to the pool fee, whole, exactly when the key of the largest confirmed row id is not taken, and the miner's balance is then zero |
| PayoutSweeps.SweepKeepsInv | src/wallet/payout-worker.js:591-624 | One whole sweep, thrown errors included, keeps the payout tables consistent whatever node, builder and clock answer |
| PayoutSweeps.CreatesOnlyWhenAllConfirmed | src/wallet/payout-worker.js:598-616 | A sweep proposes a new batch only when every other batch is CONFIRMED |
| SweepProgress.SweepInPhases | src/wallet/payout-worker.js:591-624 | A sweep with the lock is recovery of every open batch, forfeiture of every dormant balance, then new work: none while a batch is open, else a turn for each RESERVED batch, else, with nothing HELD, a proposal; nothing is thrown while fees are known and what is to be sent can be sent |
| SweepProgress.OpenBatchesAnswered | src/wallet/payout-worker.js:579-588 | With a node and no thrown confirmation, each batch that was open is after the whole sweep CONFIRMED with its payments and fee booked if the node called it committed, BROADCAST with its items if pending, and unchanged if unknown |
| SweepProgress.OpenBlocksNewWork | src/wallet/payout-worker.js:596-603 | While an open batch stays open, no batch that is not open changes and none is created |
| SweepProgress.ReservedBatchesResumed | src/wallet/payout-worker.js:604-611 | With nothing left open, every RESERVED batch ends BROADCAST, or HELD again, or still RESERVED because the gate refused it, each under its exact condition |
| SweepProgress.ProposesWhenAllConfirmed | src/wallet/payout-worker.js:612-620 | With every batch CONFIRMED and nobody dormant, the new batch exists exactly when the pool is solvent and a candidate suffices; it is sent at once within the caps and HELD beyond them |
| SweepRuns.SweepIsRun | src/wallet/payout-worker.js:591-624 | Every sweep, thrown errors included, whose gate reads the state's own income is a run of steps of the pool |
| SweepRuns.SweepStaysReachable | src/wallet/payout-worker.js:591-624 | From a state of some run a sweep leads to a state of some run, so that all that holds in every run holds after it |
| PayoutWorker.Worker.RunOnce | src/wallet/payout-worker.js:591-624 | The imperative sweep has exactly the effect of the sweep function, error or not; what that effect is, the SweepProgress rows say |
| PayoutWorker.Worker.CreateBatch | src/wallet/payout-worker.js:238-305 | Row by row, the effect of the proposal function; it throws exactly on a negative amount |
| PayoutWorker.Worker.Candidates | src/wallet/payout-worker.js:250-264 | The loop keeps the first mention of each miner whose balance, read again, still suffices |
| PayoutWorker.Worker.ReserveReleasedBatch | src/wallet/payout-worker.js:331-404 | Row by row, the effect of the release function; true exactly when nothing of the batch is HELD any more |
| PayoutWorker.Worker.ProcessBatch | src/wallet/payout-worker.js:407-460 | Save, send, record, each failure leaving exactly what was committed before it |
| PayoutWorker.Worker.ConfirmBatch | src/wallet/payout-worker.js:480-576 | The effect of the node's answer on the tables; true exactly when the batch is CONFIRMED afterwards |
| PayoutWorker.Worker.RecoverPendingBatches | src/wallet/payout-worker.js:579-588 | Confirms every unresolved batch in order until one throws |
| PayoutWorker.Worker.ForfeitUnpayable | src/wallet/payout-worker.js:176-232 | One transaction per dormant miner; forfeited_shannons grows by exactly what the pool fee account gains |
| PayoutWorker.Worker.ReserveItem | src/wallet/payout-worker.js:307-324 | Posts the two reservation rows of an item |
| PayoutWorker.Worker.MoveItems | src/wallet/payout-worker.js:445-447 | The state update over the item table, row by row |
| ForfeitKeys.NewKeyIff | src/wallet/payout-worker.js:190-199 | A later forfeiture gets a new key exactly when a new confirmed row's id exceeds all earlier ones |
| ForfeitKeys.LaterCreditStranded | src/wallet/payout-worker.js:190-208 | A concrete run in which a credit after a forfeiture cannot be forfeited, against the comment that it gets a different key |
| Allocator.Tables.AllocateMatureBlock | src/accounting/allocator.js:72-191 | The uninterrupted call: nothing changes without receipt, guard or template; a throw or an older allocation leaves ALLOCATED; otherwise plan, rows and SETTLED_TO_LEDGER |
| Allocator.Tables.PostPlan | src/accounting/allocator.js:150-186 | The posting loop writes the plan's rows in order |
| AllocationRuns.AllocationIsRun | src/accounting/allocator.js:72-191 | Whatever one uninterrupted call does to the tables, from any state, steps of the pool do |
| Ledger.PostAllFresh | src/accounting/ledger.js:10-21 | Rows with new, different keys are all appended in order |
| Ledger.PostAllAppends | src/accounting/ledger.js:10-21 | Whatever is posted, nothing is removed or changed, no key occurs twice, and every key given is posted afterwards |
| Pplns.AllocateBlock | src/pplns/pplns.js:45-129 | The loops over window, works, floors and remainders compute the allocation function, whose result PplnsResults.AllocationDivides describes; the conservation error is unreachable for every input |
| Pplns.SelectWindow | src/pplns/pplns.js:58-67 | The backward loop finds the start of the window |
| Pplns.MinerWork | src/pplns/pplns.js:69-73 | The map holds each miner's work in the window, keys in order of first appearance |
| Pplns.HandOut | src/pplns/pplns.js:104-109 | The remainder loop gives one unit each to the first miners in order until nothing is left |
| Pplns.GroupsAddUp | src/pplns/pplns.js:69-74 | The miners' works add up to the window's work |
| PplnsProperties.WindowIsShortest | src/pplns/pplns.js:58-67 | The window is exactly the shortest non-empty suffix reaching the target, or the whole history when none does |
| PplnsProperties.Conserves | src/pplns/pplns.js:123-127 | Credits, fee and rounding add up to the reward for every input for which an allocation is computed |
| PplnsProperties.RoundingIsZeroIff | src/pplns/pplns.js:90-110 | Nothing is rounded away exactly when the pot is not negative or divides evenly |
| PplnsProperties.FewLeft | src/pplns/pplns.js:90-110 | With a non-negative pot fewer units are left after the floors than there are miners, and all are handed out |
| PplnsProperties.CreditByRank | src/pplns/pplns.js:92-109 | A credit is the floor plus one exactly when fewer miners rank before it, by remainder and then key, than units are left |
| PplnsProperties.CreditIsQuota | src/pplns/pplns.js:76-109 | Every credit is the exact proportional share rounded down or up |
| PplnsProperties.MoreWorkNeverLess | src/pplns/pplns.js:76-109 | A miner with more work never gets less |
| PplnsProperties.ComputedIff | src/pplns/pplns.js:51-61 | An allocation is computed exactly when there are shares, the window's denominator is not zero, and the window holds work |
| PplnsProperties.ProperAllocation | src/pplns/pplns.js:45-129 | For a fee of at most 100 %: no rounding, no negative credit, one line per miner, credits + fee = reward |
| PplnsProperties.OverchargedFee | src/pplns/pplns.js:54-56 | A concrete input with a fee above 100 % whose rounding is negative |
| PplnsResults.AllocationDivides | src/pplns/pplns.js:45-129 | Read off the result of every allocation with a fee of at most 100 %: the shares counted are the shortest suffix whose work reaches the whole window target, one line in key order for each of its miners over all their work, the fee rounded down, and the units left after the floors given to the largest remainders, ties by key |
| PplnsResults.FeeIsFloor | src/pplns/pplns.js:54-56 | For any non-negative reward and fee rate: fee * 10000 <= reward * feeBps < (fee + 1) * 10000 |
| Reconciler.ConfirmedIsTrue | src/wallet/reconciler.js:92-211 | If blocks buried `confirmations` deep are never replaced, every confirmed receipt of every run, overlapping passes included, is true for ever from the moment at which an earlier pass over its block read the tip: recorded block at H, amount paid at H+11 to H's own lock |
| Reconciler.RunKeepsInv | src/wallet/reconciler.js:92-211 | Both live-only keys and every row's evidence hold in every state of every run of overlapping passes |
| Reconciler.OneClaimPerHeight | src/wallet/reconciler.js:92-211 | Two confirmed live receipts never claim the income of one height |
| Reconciler.PassKeepsConfirmed | src/wallet/reconciler.js:178-208 | Whatever the node answers, passes that do not overlap never change or void a confirmed receipt |
| Reconciler.VoidsConfirmedIff | src/wallet/reconciler.js:160-175 | A write voids a confirmed live receipt exactly when its pass had read it unconfirmed under another payout transaction |
| Reconciler.WriteKeepsRows | src/wallet/reconciler.js:137-175 | Whatever is written, no row is removed, none changes but in its two marks, and neither mark is ever taken back |
| Reconciler.WriteKeepsKeys | db/migrations/005-receipt-supersede.sql:22-27 | Both live-only unique keys survive every write, stale or not |
| Reconciler.FoundIsSound | src/wallet/reconciler.js:92-131 | What a pass finds rests on the recorded block and on what the payout block paid, and a deep finding on a buried one |
| Reconciler.FindingMeans | src/wallet/reconciler.js:35-82 | A pass finds income exactly when both blocks are served, the first is the recorded one, the second stands eleven blocks later and pays the lock of the first one's witness; the receipt is over all it pays that lock, at its first such output, mature in the first whole epoch four epochs later |
| Reconciler.PassMeans | src/wallet/reconciler.js:92-176 | An undisturbed pass records what it found, confirmed if eleven blocks and the confirmations have passed; voids an unconfirmed receipt of another transaction; confirms a deep one; and leaves a confirmed one, or another block's claim on that output, alone |
| Reconciler.PassCovers | src/wallet/reconciler.js:178-208 | After a tick, what any of its rows was found to have earned has a receipt, confirmed or voided if it was deep, or another block holds that output |
| AllocationRuns.PassIsRun | src/wallet/reconciler.js:178-208 | An undisturbed tick is a run of reads and writes of the pool |
| Reconciler.Table.ReconcileBlock | src/wallet/reconciler.js:92-176 | The branches of one pass have the effect of the pass function |
| Reconciler.Table.Tick | src/wallet/reconciler.js:178-208 | The tick's loop is the pass function over all rows |
| OverlappingPasses.OverlapVoidsConfirmed | src/wallet/reconciler.js:145-175 | A run within all assumptions in which an overlapping pass voids a confirmed receipt, against the allocator's claim that one is immutable |
| ConvertBits.ConvertBits | src/stratum/username.js:50-68 | The loop over a 32-bit accumulator equals regrouping one unbounded number: truncation never shows |
| ConvertBits.BytesRoundTrip | src/stratum/username.js:50-68 | Five-bit groups of any bytes convert back to those bytes |
| ConvertBits.GroupsRoundTrip | src/stratum/username.js:50-68 | Groups that convert to bytes are exactly the padded groups of those bytes |
| ConvertBits.ConvertsIff | src/stratum/username.js:50-68 | Regrouping succeeds exactly when every value is in range and, without padding, fewer bits than one input group remain over, all zero |
| ConvertBits.CutNum | src/stratum/username.js:50-68 | Without padding the groups are the same number, less the zero bits left over |
| Checksum.Polymod | src/stratum/username.js:29-40 | The loops over values and generators compute the checksum function |
| Checksum.AdvanceLinear | src/stratum/username.js:33-37 | One checksum step is linear over exclusive or |
| Checksum.AdvanceInjective | src/stratum/username.js:33-37 | One checksum step is injective on 30-bit states |
| Checksum.PolyLinear | src/stratum/username.js:29-40 | The whole checksum is linear over exclusive or |
| Checksum.ErrorsDetected | src/stratum/username.js:29-40 | Words that differ only within six consecutive symbols never share a checksum |
| Checksum.CheckHolds | src/stratum/username.js:80-84 | The appended symbols give the word the wanted checksum |
| Checksum.CheckUnique | src/stratum/username.js:80-84 | No other six symbols do |
| Bech32.Bech32Encode | src/stratum/username.js:77-86 | The encoder's loops compute the encoding function |
| Bech32.Bech32Decode | src/stratum/username.js:92-113 | The decoder's loop and early returns compute the decoding function |
| PublishedTexts.EncodedConstant | src/stratum/username.js:77-86 | The whole word of an encoding has checksum 1 for bech32 and 0x2bc830a3 for bech32m |
| PublishedTexts.DecodedConstant | src/stratum/username.js:103-113 | A text decodes as bech32 only if its word's checksum is 1, and as bech32m only if it is 0x2bc830a3 |
| PublishedTexts.ShortestPlain | src/stratum/username.js:92-113 | The BIP-173 text A12UEL5L, in lower case, is bech32 with an empty payload |
| PublishedTexts.ShortestModified | src/stratum/username.js:92-113 | The BIP-350 text A1LQFN3A, in lower case, is bech32m with an empty payload |
| PublishedTexts.EveryCharacter | src/stratum/username.js:26-113 | The BIP-173 text abcdef1qpzry9x8gf2tvdw0s3jn54khce6mua7lmqqqxw, which holds the whole alphabet in order, has a valid bech32 checksum over the values 0 to 31 |
| Bech32.HrpExpandLoop | src/stratum/username.js:42-48 | The two loops compute the expanded prefix |
| Bech32Properties.RoundTrip | src/stratum/username.js:77-113 | Decoding gives back prefix, payload and variant of an encoding exactly when its prefix is not empty |
| Bech32Properties.Canonical | src/stratum/username.js:77-113 | Re-encoding any decoded text gives it back with its data part in lower case |
| Bech32Properties.OneErrorDetected | src/stratum/username.js:92-113 | Replacing one data character by any other that is not the same letter never decodes to the same prefix under the same variant, at any length: the separator lengthens the prefix, anything else changes the checksum |
| Bech32Properties.BurstsDetected | src/stratum/username.js:92-113 | The same for any change within six consecutive data characters |
| Bech32Properties.SeparatorDetectedIff | src/stratum/username.js:94-98 | A data character overwritten by the separator keeps the checksum, whatever follows, exactly when both readings of what stands before reach the same state |
| SeparatorCollision.SeparatorCollides | src/stratum/username.js:92-113 | For prefix ckb and either variant, a decodable text that decodes again under the same variant, with a longer prefix and no data, once one character is overwritten by the separator |
| Bech32Properties.CaseIsIgnored | src/stratum/username.js:99-104 | The mixed-case check rejects nothing: decoding depends only on the lower-cased data part |
| Bech32Properties.KelvinIsK | src/stratum/username.js:99-104 | The Kelvin sign decodes as k |
| Molecule.OffsetContainer | src/mining/ckb-merkle.js:71-82 | The builder's loop writes size, offsets and fields |
| Molecule.TableOffsets | src/wallet/cellbase-witness.js:29-49 | The checked reads compute the boundary function or its error; no read leaves the buffer |
| Molecule.ContainerRoundTrip | src/mining/ckb-merkle.js:71-82 | The fields of every non-empty container are recovered exactly when its size fits 32 bits |
| Molecule.ContainerCanonical | src/wallet/cellbase-witness.js:29-49 | Every accepted table is the container of the fields found in it |
| Molecule.OffsetsOk | src/wallet/cellbase-witness.js:29-49 | Accepted boundaries ascend and stay inside the buffer |
| CellbaseWitness.ScriptRoundTrip | src/wallet/cellbase-witness.js:60-78 | parseScript inverts script() |
| CellbaseWitness.ScriptCanonical | src/wallet/cellbase-witness.js:60-78 | An accepted script re-encodes to itself exactly when its table has no field beyond the three read |
| CellbaseWitness.WitnessRoundTrip | src/wallet/cellbase-witness.js:80-92 | parseCellbaseWitness recovers lock and message of every witness, from hexadecimal text |
| CellbaseWitness.HexRoundTrip | src/wallet/cellbase-witness.js:80-86 | Hexadecimal text of any bytes reads back as those bytes |
| Layouts.ContainerLayout | src/mining/ckb-merkle.js:71-82 | A container is its size, then the offset of each field, then the fields in order without gaps |
| Layouts.ScriptLayout | src/mining/ckb-merkle.js:109-113 | The bytes of a script: size, offsets 16, 48 and 49, code hash, hash type 0, 1, 2 or 4, and the arguments with their length |
| Layouts.WordLayout | src/mining/ckb-merkle.js:42-46 | A header word is four bytes, least significant first |
| Layouts.AcceptedIff | src/wallet/cellbase-witness.js:29-49 | A buffer is accepted as a table exactly when it is the container of some fields and its size fits 32 bits |
| Layouts.ScriptParsesIff | src/wallet/cellbase-witness.js:60-78 | A table is read as a script exactly when its first three fields are 32 bytes of code hash, one known hash type byte, and the arguments with their length; more fields may follow |
| Layouts.WitnessParsesIff | src/wallet/cellbase-witness.js:80-92 | A table is read as a witness exactly when its first field is read as the lock and its second is the message with its length; more fields may follow |
| Layouts.FromHexIff | src/wallet/cellbase-witness.js:80-86 | Text is read as bytes exactly when it is two hexadecimal digits for each, of either case, the high one first |
| Merkle.MerkleRoot | src/mining/ckb-merkle.js:156-165 | The in-place array loop computes the root of the complete binary tree |
| Merkle.JoinedRoot | src/mining/ckb-merkle.js:156-165 | Joining the last two leaves keeps the root, so the root is what joining again and again leaves |
| Merkle.RootBinds | src/mining/ckb-merkle.js:156-165 | Two lists of equal length with one root are equal, or a collision of the hash is met while joining them |
| Merkle.RootInjective | src/mining/ckb-merkle.js:156-165 | With an injective hash equal-length lists have equal roots exactly if they are equal |
| Merkle.LengthsConfused | src/mining/ckb-merkle.js:156-165 | The length matters: a list and its joined form share their root |
| Merkle.TransactionsRootBinds | src/mining/ckb-merkle.js:172-178 | With an injective hash the transactions root determines transactions and witnesses of as many transactions |
| Merkle.SmallRoots | src/mining/ckb-merkle.js:156-165 | Two nodes are hashed left to right, and of three leaves the hash of the last two comes before the first; with Merkle.JoinedRoot this fixes every root |
| Merkle.TransactionsRootIs | src/mining/ckb-merkle.js:172-178 | The transactions root hashes the root of the transaction hashes, then that of the witness hashes |
| Cells.EpochRoundTrip | src/wallet/cells.js:10-26 | Packed epoch fields read back exactly when they fit and the index is inside the epoch |
| Cells.EpochCanonical | src/wallet/cells.js:10-26 | Every accepted packed epoch is the packing of what was read |
| Cells.AtLeastIsExact | src/wallet/treasury.js:34-37 | The cross-multiplied comparison is the exact order of number + index / length |
| Cells.SpendableIsWaited | src/wallet/treasury.js:47-65 | Spendable are exactly the cells that are no cellbase outputs or whose epoch, with its fraction, lies at least four epochs back |
| Cells.SelectsWaited | src/wallet/tx-builder.js:224-237 | Selection succeeds exactly when such cells cover the target, and takes the oldest of them, each one needed, none left out that is older |
| Cells.EpochLayout | src/wallet/cells.js:10-26 | An epoch is accepted exactly when it is 24 bits of number, 16 of index and 16 of length, the index below the length |
| Cells.OldestKeepsOrder | src/wallet/cells.js:58-58 | The sort is stable: cells of one block stay in the order in which they were listed |
| Cells.SpendableSplit | src/wallet/treasury.js:47-65 | The loop sums all capacities and those of mature cells |
| Cells.SelectOldest | src/wallet/cells.js:55-67 | The selection loop computes the selection function |
| Cells.SelectionIsShortest | src/wallet/tx-builder.js:224-237 | Selection succeeds exactly when mature cells cover the target, and takes the shortest oldest-first prefix of them |
| Cells.OldestIsSorted | src/wallet/cells.js:58-58 | The sort puts cells by block number, losing and inventing none |
| TxPlan.BuildPayout | src/wallet/tx-builder.js:291-355 | The sums, selection and output list of the builder compute the build function |
| TxPlan.BuildMeans | src/wallet/tx-builder.js:239-355 | Selection fails exactly when the cells that have waited do not cover the requested amounts, the fee for the size with a change output and one minimum cell; otherwise the transaction spends the oldest of them, with the fee for its size; what remains becomes an output, or if below the cell minimum goes to the fee, and fails a sweep |
| TxPlan.InputsAreSpent | src/wallet/tx-builder.js:245-281 | In every built transaction inputs = outputs + fee, and the fixed outputs are the requested ones |
| TxPlan.FullRemainderIff | src/wallet/tx-builder.js:301-337 | Whatever cells cover the computed minimum, selecting n of them leaves a full change or sweep output, and no error, exactly when n is at most 200 (202 for a sweep): for every larger n there are cells that lose it |
| TxPlan.BuildSucceeds | src/wallet/tx-builder.js:291-355 | If mature cells cover the minimum with at most 200 inputs, building succeeds with a last output of at least the cell minimum |
| Publisher.FirstCopiesInOrder | src/events/publisher.js:31-89 | For every interleaving of notes, timeouts, late deliveries and retries, first copies reach the bus in note order with only invalid events skipped |
| Publisher.AlwaysLive | src/events/publisher.js:31-89 | A non-empty queue always has a drain running or a retry armed, while the failure callback returns |
| Publisher.StaysLiveIff | src/events/publisher.js:46-52 | The only turn that leaves a queue unattended is a failed publish whose callback throws before the timer is set |
| Publisher.FlagsMean | src/events/publisher.js:23-99 | In every run: events removed = successful publishes; failed is up exactly when a publish failed and the queue has not been empty since; the timer is set exactly when one failed whose callback returned and no retry has fired since; at most one attempt is under way |
| Publisher.Queue.Note | src/events/publisher.js:31-34 | The object's turn has the effect of the note step |
| Publisher.Queue.Resume | src/events/publisher.js:36-61 | The object's turn after publishOne has the effect of the settle step |
| Publisher.Queue.RetryFires | src/events/publisher.js:83-88 | The object's timer turn has the effect of the retry step |
| Publisher.Queue.Drain | src/events/publisher.js:36-61 | One pass of the drain loop up to its next await or its end |
| Ingest.AtMostOnce | src/accounting/ingest.js:118-161 | In every run with crashes and redeliveries no sequence key has two rows or two open transactions |
| Ingest.LostForGood | src/accounting/ingest.js:133-161 | An event registered whose transaction failed is never applied, however often it is redelivered |
| Ingest.FailLoses | src/accounting/ingest.js:137-157 | A failed transaction always loses its event |
| Ingest.LostIff | src/accounting/ingest.js:133-161 | In every run, a registered event that nobody works on has no row exactly when at some step its transaction failed or its insert clashed with another row's id or submission |
| Ingest.HistoryForgetsDelivery | src/accounting/ingest.js:59-72 | Without failures the share history is the same for every order, repetition and interleaving of one set of compatible events |
| Ingest.HistoryMeans | src/accounting/allocator.js:103-111 | The share history lists every row once, by accepted_at, then edge, then boot, then sequence number, texts by code units |
| Ingest.ProcessMeans | src/accounting/ingest.js:118-161 | An event is registered exactly when it is valid and its key and id are unknown, and then stored exactly when no share has its key, id or submission |
| Ingest.ProcessIsRun | src/accounting/ingest.js:133-161 | The uninterrupted call is a registration followed, if that registered anything, by its commit |
| Ingest.DoubleSubmitDependsOnOrder | db/migrations/001-init.sql:79-80 | Two events reporting one submission under different sequence keys: whichever is applied first wins |
| Ingest.LastIsWinnerIff | src/accounting/allocator.js:103-111 | The last share read for a block is the winning one exactly when no share accepted at the same moment sorts after it |
| Ingest.Database.ProcessEvent | src/accounting/ingest.js:133-161 | The uninterrupted call registers and inserts, or does nothing for invalid and known events |
| Sorting.SortForgetsOrder | src/accounting/allocator.js:103-111 | Sorting by the canonical order forgets in which order rows were inserted |
| Sorting.LessIff | src/pplns/pplns.js:81-98 | The order on keys is by code units: a proper prefix first, else the first difference decides |
| Targets.MeetsTargetLE | src/mining/ckb-target.js:55-63 | The byte loop computes the comparison from the most significant end |
| Targets.MeetsIffAtMost | src/mining/ckb-target.js:55-63 | A hash meets a target exactly when its big-endian number is at most the target's little-endian number |
| Targets.NumberRoundTrip | src/mining/ckb-target.js:35-46 | Reading back a written number gives it, clamped to 0 .. 2^256 - 1 |
| Targets.TextRoundTrip | src/mining/ckb-target.js:35-46 | Writing back a read lower-case target gives it |
| Targets.SwapPairs | src/mining/ckb-target.js:35-46 | The loop over byte pairs reverses them |
| Targets.AssignedIff | src/mining/ckb-target.js:26-33 | A difficulty has an assigned target unless it rounds to zero millionths, and that target is zero exactly above 2^224 |
| Targets.TargetMeans | src/mining/ckb-target.js:26-33 | The target assigned is 2^224 divided by the difficulty in millionths, times 10^6 and rounded down; none is ever clamped |
| Targets.FirstTarget | src/mining/ckb-target.js:14-33 | Difficulty 1 is 2^224, written as 28 zero bytes, a one and three zero bytes; a difficulty that is not positive gets it too |
| Targets.LittleEndianText | src/mining/ckb-target.js:35-38 | A text's number is its first byte, high digit first, plus 256 times the number of the rest |
| JobRegistry.Registry.Add | src/stratum/job-registry.js:33-40 | Insertion and the eviction loop leave the newest jobs and mark the added one current |
| JobRegistry.AddKeeps | src/stratum/job-registry.js:33-40 | The registry stays bounded and without duplicate ids, and the job added last can be looked up |
| JobRegistry.PutMeans | src/stratum/job-registry.js:33-36 | A known id keeps its place, a new one goes to the end, and no other job moves |
| JobRegistry.NewestMeans | src/stratum/job-registry.js:37-39 | Eviction drops oldest jobs only, and no more than needed |
| JobRegistry.RetainedIff | src/stratum/job-registry.js:27-46 | A job is retained exactly while fewer than maxJobs jobs were added after it |
| ShareValidator.ValidateShare | src/edge/share-validator.js:44-107 | The branches of validation compute the verdict function |
| ShareValidator.CreditedIff | src/edge/share-validator.js:63-107 | A share is credited exactly when it is well formed, names a known job, meets the network target or, on the current job, the assigned one, and the assigned target is not zero |
| ShareValidator.BlockNeverDropped | src/edge/share-validator.js:63-107 | A well-formed solution of the network target of a retained job is credited and flagged as a block, however old the job, exactly when the difficulty is not positive or between 10^-6 and 2^224, hence for every difficulty vardiff clamps to |
| ShareValidator.BlockCreditedIff | src/edge/share-validator.js:63-107 | Over a given assigned target: exactly when that target is not zero |
| ShareValidator.LowDifficultyIff | src/stratum/job-registry.js:80-84 | Only a share of the current job meeting neither target is rejected as too easy |
| ShareValidator.VerdictIff | src/edge/share-validator.js:44-107 | Exactly when a nonce is refused, a job unknown, a share stale, and when validation divides by a zero target |
| ShareValidator.NonceMeans | src/stratum/miner-family.js:95-100 | The nonce hashed is the session's prefix, or the default one, followed by the digits; for other families the digits filled up with leading zeros |
| ShareValidator.WellFormedIff | src/edge/share-validator.js:45-57 | A nonce is well formed exactly when it has at most 64 characters, is hexadecimal digits after an optional 0x, and makes 32 digits with its prefix, or at most 32 without one |
| ShareValidator.WorkMeans | src/pplns/work-units.js:25-30 | Work is the whole part of 2^256 - 1 over the target, and 2^32 - 1 for difficulty 1 |
| BlockTracker.NeverOrphaned | src/accounting/block-tracker.js:84-172 | If blocks buried orphanConfirmations deep are never replaced, no run of ticks, overlapping ones and failed lookups included, marks a finally canonical block ORPHANED |
| BlockTracker.Restored | src/accounting/block-tracker.js:104-151 | In every run, a turn alone on its ORPHANED row makes it MATURE or CANONICAL_IMMATURE exactly when its lookup, within the recheck depth, serves the pool's own block; otherwise the row stays ORPHANED |
| BlockTracker.TurnsDecide | src/accounting/block-tracker.js:104-170 | In every run, what a turn alone on its row makes of it: CANONICAL_IMMATURE becomes MATURE exactly when the lookup answered and the tip's epoch is maturityEpochs past the recorded one; NODE_ACCEPTED is found on the chain exactly when the lookup gave the pool's own block and ORPHANED exactly when it gave another one below enough blocks; hash and epoch are those of the block found; otherwise nothing changes |
| BlockTracker.MaturesAsCompared | src/accounting/block-tracker.js:159-168 | With four epochs, that turn to MATURE happens exactly when the comparison of epoch numbers says so |
| BlockTracker.OthersUntouched | src/accounting/block-tracker.js:84-172 | In every run in which no other write to a row falls between a turn's reading and its writing of it, a step changes a row that is MATURE, ALLOCATED or beyond only if another service sets it |
| BlockTracker.StaysSettled | src/accounting/block-tracker.js:84-172 | Over any stretch of such a run without other services' writes the row stays as it was |
| BlockTracker.OverwritesIff | src/accounting/block-tracker.js:138-167 | A turn changes a row that is ALLOCATED or beyond exactly when it had read the row in a selected state and its verdict changes what it read; no other row changes |
| BlockTracker.AllocatedTakenBack | src/accounting/block-tracker.js:84-172 | A run on a chain that never changes in which the second of two overlapping ticks takes an allocated row back to MATURE |
| BlockTracker.MatureEarlyIff | src/accounting/block-tracker.js:136-137 | Comparing epoch numbers is never later than consensus maturity, and earlier exactly in the epoch where the fraction decides, against the header comment |
| BlockTracker.Tracker.Tick | src/accounting/block-tracker.js:84-172 | The tick's loop judges every row as the verdict function does |
| BlockTracker.TickTakesTurns | src/accounting/block-tracker.js:84-172 | An undisturbed tick leaves every row as a turn of its own would |

## Left out

- Reconciler.ConfirmedIsTrue: says nothing of receipts whose row carries no block hash, because the source then cannot tell which block it reads.
- ShareValidator.ValidateShare: takes the assigned target as given; Targets.DiffToTargetLE starts from the difficulty in millionths, after the one rounding that is done in floating point.
- Publisher.FirstCopiesInOrder: identifies an event by the moment it was noted; a record replayed from the spool is a second note of its own.
- Ingest.HistoryForgetsDelivery: covers share events; block submissions and candidate rows (linkCandidateShare, upsertBlockFromSubmit) are left out.
- PostgreSQL, advisory-lock sessions, NATS, HTTP, WebSocket, file system and RPC plumbing.
- The selection of candidates and dormant miners (eligibleMiners, classifyRow, dust.js): any list of candidates is allowed.
- The 24-hour cap as a property: it counts broadcast value only and is no invariant of all runs.
- transactionFee's lookups: the derived fee is an argument.
- block_allocation_items rows and allocation_hash: nothing reads them back; the plan stands for what the hash commits to.
- compactToTargetLE and the network work of a block: an argument of the allocation.
- Bodies of hashes and signatures, witness assembly, dependency lookup and cell collection over the network.
- The check that at most one sweep recipient is given, and assertRecipientsPayable.
- validateCkbAddress, parseUsername, vardiff, Stratum wire handling, servers, dashboards, metrics and configuration.
- Cold sweeps and treasury snapshots.
- Liveness of payouts: a batch whose process dies between saving its hash and sending it stays BUILT; the source never sends it again and neither does the model.
