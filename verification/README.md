# Verified models of the transaction service's analytics rollups

A Dafny project that models the parts of the Safe Transaction Service where a
wrong number would never correct itself, and proves what they promise. Run
`dafny verify dfyconfig.toml` to check it.

## What is modelled

**The balance rollups.** `Ledger` holds a finite history of movements and the
from-scratch sum over a block window. `NativeBalances` is the nightly rollup of
ether balances: seed new Safes at the old watermark, add the window's flow, mark.
`NativeProtocol` interleaves it with the chunked backfill (manifests, messages
with a dispatch generation, the shared lock, halving of heavy chunks) and an
indexer; `NativeSafety` keeps the invariants, `NativeRuns` states what holds over
whole executions, `NativeTermination` why a backfill ends (`BackfillSizing` counts the
halvings), `NativeProgress` what its steps get done and that nothing but a fault strands a
run, and `NativeManualStarts` what starts by hand can break.
`NativeTotals` shows that the three ways to total the fleet agree. `Erc20Balances`
and `Erc20Protocol` do the same for (Safe, token) pairs, where new Safes are found
by a marker and a run may be capped, die after its seed and be retried.
`TokenHoldings` is the read model rebuilt from the pairs, `Erc20Rollup` the run as it
changes its tables, and `Erc20Returns` what becomes of addresses that are Safes again.

**The daily metrics.** `DailyMarks` follows the completion marks and the catch-up
record of one day through full runs, partial retries and deaths. `DayBackfill` is
the day-range backfill's chain of chunks, with every load and save of its manifest a
step of its own, and `DayBackfillRuns` what holds of its executions. `DayWindows` and `DailyCounts` are the
block windows of days and the counts taken over them.

**The history and contracts apps.** `Erc721Ownership` is ownership by counting,
`BulkInsert` the batch insert with its one-by-one fallback, `ConfirmationBinding`
the handler that binds confirmations to transactions, `AbiIndex` the selector index
of the decoder, and `TransferIds` (over `Decimals`) the trace addresses and transfer
ids that one place prints, another recognises and a third parses.

`Options`, `Ordering` and `Sums` are shared: optional values, ORDER BY ... LIMIT over
a finite table, and SUM / GROUP BY over a finite set of rows.

## What the proofs assume of the environment

These are hypotheses in the statements (guards of events or `requires` clauses), not
things proved.

- Blocks at or below a safe head that was once used do not change. Reorganisations
  reach only above it (tasks.py:1123-1168, 2218-2241).
- A Safe that becomes visible after an ERC-20 run fixed its boundary sorts above that
  boundary, and boundaries never move back (tasks.py:1952-1972).
- The rollup lock is exclusive. A chunk's check of the manifest together with taking
  the lock is one step, and so is releasing it together with saving the manifest and
  sending the next chunk.
- What the program runs in one transaction happens entirely or not at all. The seed
  before it is separate, and a process may die in between.
- Each chord callback of the day-range backfill is delivered at most once.
- An ERC-721 history is lawful: every transfer leaves the owner of the moment, which
  EIP-721 asks of a Transfer event.

## Where the code and its promises part

- A backfill chunk never compares its head with anything. A run started by hand over an
  existing watermark and overtaken by a nightly run seeds at the old block
  (`NativeManualStarts.OvertakenTopUpLosesFlow`), and one of two runs started by hand
  before any watermark hands over at its own block what the other seeded at a later one
  (`NativeManualStarts.LateHandOverPublishesTooMuch`). The conditions are one per kind of
  write: `SeedIsSafeExactlyWhenAligned` under a watermark, `EarlySeedIsSafeExactlyWhenStamped`
  before one, and `HandOverIsSafeExactlyWhenStamped` for the hand-over. Without starts by
  hand none of it can happen (`NativeRuns.UnattendedRunsAreSafe`).
- An address that becomes a Safe again while ERC-20 pairs of its earlier life are stored
  keeps them: the seed leaves them alone, and no delta covered them meanwhile
  (`Erc20Returns.ReturningSafeKeepsItsOldBalance`). The condition is that none is stored
  (`Erc20Returns.ReturningIsRightExactlyWhen`) and that no run under way still lists the
  address (`Erc20Returns.PlannedReturnIsRightExactlyWhen`). Native rows do not have this:
  the delta moves them whether or not their Safe is there.
- `core_completed_at` can stay set over traffic rows that failed when a process died
  between setting the marks and recording them
  (`DailyMarks.StaleRecordSpoilsTheCoreMark`). What can be checked beforehand is
  `DailyMarks.CoreMarkStaysTrueExactlyWhen`.
- A core run that dies between clearing the marks and resetting `core_ok` can be followed by
  a retry that skips the core and sets them again (`DailyMarks.KilledCoreNeedsTheCore`,
  `DailyMarks.UnresetCoreIsRetriedWithout`). Nothing was executed by then, so the marks are
  true of the tables (`DailyMarks.RunKeepsHonest`).
- Superseding a day-range run loads its manifest and saves the whole copy later, as do the
  callback and the handler of a failed dispatch. Written over a callback's commit, it loses
  a finished chunk (`DayBackfillRuns.OvertakenSupersessionLosesAChunk`,
  `DayBackfillRuns.RunIsAccountedExactlyWhen`); written under one, it is itself lost
  (`DayBackfillRuns.OvertakenSupersessionIsLost`, `DayBackfillRuns.SupersedeStopsExactlyWhen`).
  Naming another run the latest holds the old one back only until that key is lost
  (`DayBackfillRuns.StopsForGoodExactlyWhen`).
- Which of two instances with one key is stored is not always the first in the list:
  decoded ones go first (`BulkInsert.DecodedInstanceWins`,
  `BulkInsert.FirstOccurrenceWinsExactlyWhen`).
- A confirmation created already bound under another hash, or under none, leaves its
  transaction untrusted (`ConfirmationBinding.PreboundConfirmationIsNotTrusted`,
  `ConfirmationBinding.CreationKeepsTrustExactlyWhen`).
- The child of a root trace is looked up with a leading comma and never found; the
  parent of a trace one deep is not looked up at all
  (`TransferIds.ChildIsTheChildExactlyWhen`, `TransferIds.ParentIsTheParentExactlyWhen`).
- The transfer-id patterns accept ids that are never printed (`TransferIds.LeadingZeroIsRecognised`,
  `TransferIds.LeadingCommaIsRecognised`, `TransferIds.UpperCaseHashIsRecognised`,
  `TransferIds.ForeignDigitIsRecognised`, `TransferIds.ValidIdIsPrintedExactlyWhen`).
- An address's own ABI is not consulted for a selector the process has not indexed, as when
  another process saved the row (`AbiIndex.RowSavedElsewhereIsNotConsulted`,
  `AbiIndex.OwnAbiWinsExactlyWhenLearnt`).

## Model

| member | source | states |
|---|---|---|
| `NativeBalances.HeadIsHighestSettledBlock` | safe_transaction_service/analytics/tasks.py:1123-1200 | the head is the highest block that is confirmed, beyond the reorg depth and behind the trace indexer, and there is none exactly when no block is all three |
| `NativeBalances.BalanceIsTheTwoLegs` | safe_transaction_service/analytics/tasks.py:985-1001 | a balance is what the Safe received in successful plain calls with value less what it sent, over the trace table through the block: what the filter drops moves nothing |
| `NativeBalances.DeltaAdvancesRows` | safe_transaction_service/analytics/tasks.py:1070-1094 | if every row is the from-scratch balance at the watermark, the delta makes every row the from-scratch balance at the head, and neither adds nor drops a row |
| `NativeBalances.SeedKeepsRows` | safe_transaction_service/analytics/tasks.py:1299-1325 | seeding at the block the rows stand at keeps them all correct, never changes a row that is there, and gives each listed Safe one |
| `NativeBalances.SeedBlockMatters` | safe_transaction_service/analytics/tasks.py:1563-1567 | a new Safe seeded at block b and then advanced by the delta is off by exactly its flow between b and the watermark, over or under depending on the side |
| `NativeBalances.OnlyTheWatermarkIsSafe` | safe_transaction_service/analytics/tasks.py:1563-1567 | for every other seed block there is a history on which it is wrong |
| `NativeBalances.FrozenRows` | safe_transaction_service/analytics/tasks.py:1123-1168 | rows that are correct at b stay correct whatever is indexed or reorganised above b |
| `NativeBalances.RollupTable.UnseededSafes` | safe_transaction_service/analytics/tasks.py:1286-1296 | the Safes without a row, each once, or a refusal exactly when there are more than the limit |
| `NativeBalances.RollupTable.Seed` | safe_transaction_service/analytics/tasks.py:1299-1325 | batches of 5000, each committed: after k commits exactly the first k batches are in, and after a death no other rows |
| `NativeBalances.RollupTable.SeedMissing` | safe_transaction_service/analytics/tasks.py:1236-1255 | every address gets a row at the given block unless it has one; the counts of seeded and present add up to the list |
| `NativeBalances.RollupTable.WriteWatermark` | safe_transaction_service/analytics/tasks.py:1258-1283 | writes only an absent watermark and says whether it did |
| `NativeBalances.RollupTable.ColdStart` | safe_transaction_service/analytics/tasks.py:1412-1501 | starts exactly when no backfill is under way, the table is empty and the fleet is within the limit; then every Safe has a correct row at the head |
| `NativeBalances.RollupTable.Run` | safe_transaction_service/analytics/tasks.py:1504-1592 | one incremental pass: once its guards pass it dies exactly when it is killed before the mark or its seed had fewer commits than it needs, and otherwise completes; published balances equal the recompute at the watermark, refusals change nothing, and completion moves the watermark to the head with a row for each Safe |
| `BackfillSizing.HalvingShrinks` | safe_transaction_service/analytics/tasks_shards.py:102-111 | a new chunk size is strictly smaller and not below the floor; there is none exactly at or below the floor |
| `BackfillSizing.HalvingsLeftExactly` | safe_transaction_service/analytics/tasks_shards.py:102-111 | halving down to the floor takes at most k steps just when the size is below (floor + 1) * 2^k |
| `BackfillSizing.HalvingsAtMostLog` | safe_transaction_service/analytics/tasks_shards.py:102-111 | so at most ceil(log2(size / floor)) of them |
| `NativeProtocol.GenerationsKept` | safe_transaction_service/analytics/tasks_shards.py:83-90 | every event keeps it: per run at most one queued or working chunk carries the manifest's current generation |
| `NativeRuns.OutdatedForever` | safe_transaction_service/analytics/tasks_shards.py:574-580 | a chunk message that is not its run's current one is never current again, after any sequence of events |
| `NativeRuns.SupersededChunkNeverWrites` | safe_transaction_service/analytics/tasks_shards.py:699-708 | so whenever it is delivered, after anything else has happened, it changes neither manifest nor table nor watermark |
| `NativeSafety.SoundKept` | safe_transaction_service/analytics/tasks_shards.py:646-827 | every event keeps all rows correct where they stand, under any interleaving of chunks, nightly runs, indexing, deaths and lost messages, given that a chunk writes only where the rollup stands |
| `NativeSafety.OwedKept` | safe_transaction_service/analytics/tasks_shards.py:747-827 | every event keeps it: each Safe the walk has passed has a row or is in the page at work |
| `NativeSafety.SoloKept` | safe_transaction_service/analytics/bootstrap/native.py:88-170 | without starts by hand, only the latest run is going, before the hand-over, and at the block the rows are stamped with |
| `NativeSafety.SoloIsCareful` | safe_transaction_service/analytics/tasks.py:1690-1742 | so no chunk ever writes elsewhere than where the rollup stands |
| `NativeRuns.CarefulRunsAreSafe` | safe_transaction_service/analytics/tasks_shards.py:646-827 | after any sequence of events in which chunks write where the rollup stands: published balances equal the recompute, one live chunk per run, and a finished run left no Safe it owed a row without one |
| `NativeRuns.UnattendedRunsAreSafe` | safe_transaction_service/analytics/tasks.py:1504-1592 | the same after any sequence of events of the bootstrap stage and the nightly task, with no further condition |
| `NativeRuns.PublishedBalancesAreTraceSums` | safe_transaction_service/analytics/tasks.py:985-1001 | in the terms of the trace table: each published balance is the sum of the query's two legs through the watermark |
| `NativeRuns.NightlyCompletes` | safe_transaction_service/analytics/tasks.py:1551-1574 | a completed nightly run gave each Safe its seed saw a row at the new head, and its delta created none |
| `NativeRuns.BackfillHandsOver` | safe_transaction_service/analytics/tasks_shards.py:752-801 | the chunk that finds no Safe left writes the watermark over rows that are all correct there, one for each Safe owed |
| `NativeManualStarts.SeedIsSafeExactlyWhenAligned` | safe_transaction_service/analytics/management/commands/backfill_native_balances.py:263-284 | a chunk's seed under an existing watermark leaves the right balances for every history exactly when its head is the watermark or it has nothing to seed |
| `NativeManualStarts.HandOverIsSafeExactlyWhenStamped` | safe_transaction_service/analytics/tasks_shards.py:752-756 | with a run's head written as the watermark, the balances are right for every history exactly when every row is stamped with it |
| `NativeManualStarts.EarlySeedIsSafeExactlyWhenStamped` | safe_transaction_service/analytics/tasks_shards.py:749-751 | after a seed before any watermark, a later hand-over at a block is right for every history exactly when the rows are stamped with that block and the seed's head is that block too, or it had nothing to seed |
| `NativeManualStarts.OvertakenTopUpLosesFlow` | safe_transaction_service/analytics/management/commands/backfill_native_balances.py:263-284 | the code checks neither: a top-up started by hand and overtaken by a nightly run publishes a short balance |
| `NativeManualStarts.LateHandOverPublishesTooMuch` | safe_transaction_service/analytics/management/commands/backfill_native_balances.py:286-312 | and of two runs started by hand before any watermark, the late one hands over at its own block what the other seeded at a later one |
| `NativeTermination.BackfillEnds` | safe_transaction_service/analytics/tasks_shards.py:747-827 | over any events, the chunks of a run that get the lock and end are no more than the Safes ahead, plus those that appear meanwhile, plus the halvings left, plus one |
| `NativeTermination.TimeoutsAreSpent` | safe_transaction_service/analytics/tasks_shards.py:600-643 | over any events, the hard timeouts of a run and those it can still have never exceed the halvings its size had left plus one; its chunk size never grows, nor drops below the floor unless it started there |
| `NativeTermination.RunSurvivesLogTimeouts` | safe_transaction_service/analytics/tasks_shards.py:600-643 | so from a size of at most floor * 2^k, a run that is still going has survived at most k of them |
| `NativeProgress.BootstrapStartsWhereToFill` | safe_transaction_service/analytics/bootstrap/native.py:88-170 | the bootstrap starts a run at a block exactly when that is the one all rows are stamped with or, with no rows, the highest settled one; otherwise it starts none |
| `NativeProgress.ManualStartTakesItsHead` | safe_transaction_service/analytics/management/commands/backfill_native_balances.py:243-312 | a start by hand takes the watermark when there is one and that block otherwise, given that some block is settled |
| `NativeProgress.NightlySetsOutForTheHead` | safe_transaction_service/analytics/tasks.py:1504-1566 | a nightly run sets out from the watermark to the highest settled block, having seen the whole fleet |
| `NativeProgress.DeliveryTakesTheNextPage` | safe_transaction_service/analytics/tasks_shards.py:683-750 | a delivered chunk does nothing when superseded, stays queued when locked out, and otherwise takes the next Safes past the cursor in order, without a gap, to seed those that have no row |
| `NativeProgress.BatchStoresItsSafes` | safe_transaction_service/analytics/tasks.py:1299-1325 | one batch gives the next 5000 Safes of the page their rows and changes nothing else |
| `NativeProgress.FinishedPageIsHandedOn` | safe_transaction_service/analytics/tasks_shards.py:803-827 | a page seeded to its end: the cursor on its last Safe, every Safe of it counted as seeded or present, one live chunk sent |
| `NativeProgress.LastChunkClosesTheRun` | safe_transaction_service/analytics/tasks_shards.py:752-801 | past the last Safe the run is finished, and its head the watermark unless there was one |
| `NativeProgress.FailureFailsTheRun` | safe_transaction_service/analytics/tasks_shards.py:768-781 | a chunk that fails fails its run and sends nothing |
| `NativeProgress.TimeoutHalvesOrFails` | safe_transaction_service/analytics/tasks_shards.py:600-643 | a hard timeout fails the run exactly when its chunk size is at the floor; otherwise the run goes on from the same cursor to the same head with half the size, the floor at least, and exactly one live chunk |
| `NativeProgress.TimeoutsAreHalvings` | safe_transaction_service/analytics/tasks_shards.py:600-643 | over any events, a run that is still going has had exactly as many hard timeouts as its size has been halved |
| `NativeProgress.TimeoutFailsExactlyWhenSpent` | safe_transaction_service/analytics/tasks_shards.py:600-643 | so a timeout fails its run exactly when every halving of its first size has been spent, and before that the run is retried |
| `NativeProgress.OnlyFaultsStrandARun` | safe_transaction_service/analytics/tasks_shards.py:646-827 | over any events but a killed worker, a lost message or an expired manifest, every run that is going keeps exactly one live chunk |
| `NativeProgress.ResumeRevives` | safe_transaction_service/analytics/tasks_shards.py:574-580 | a resume gives a stranded run its one live chunk back |
| `NativeProgress.BackfillLeftAloneFinishes` | safe_transaction_service/analytics/tasks_shards.py:747-827 | from any state in which a run may write and its chunk is queued or at work, delivering, seeding and finishing ends with the watermark written over balances that are right, one for each Safe owed |
| `NativeTotals.BatchQueryTotals` | safe_transaction_service/analytics/tasks.py:127-148 | the batch aggregate over the addresses it has transfers for is the clamped total and the count over all addresses of the batch |
| `NativeTotals.PagesAreConsecutive` | safe_transaction_service/analytics/tasks.py:105-124 | each keyset page starts where the one before ended: no row skipped, none repeated |
| `NativeTotals.SequentialTotals` | safe_transaction_service/analytics/tasks.py:151-233 | each Safe is counted once, and left out exactly when its own batch failed; with no failure the result is the fleet's total |
| `NativeTotals.ShardsPartition` | safe_transaction_service/analytics/tasks_shards.py:117-134 | each address lies in exactly one of the sixteen prefix ranges |
| `NativeTotals.ComputeShard` | safe_transaction_service/analytics/tasks_shards.py:163-214 | a shard that does not fail totals exactly the Safes of its prefix |
| `NativeTotals.ReduceTotals` | safe_transaction_service/analytics/tasks_shards.py:218-248 | the reduce totals exactly the Safes of the shards that came back |
| `NativeTotals.ReduceCountsLosses` | safe_transaction_service/analytics/tasks_shards.py:218-248 | and counts the others, failed or missing |
| `NativeTotals.ReadTotals` | safe_transaction_service/analytics/tasks.py:1100-1106 | reading rows that stand at b totals the recompute over their Safes, with the history cut at b |
| `NativeTotals.ReadMisses` | safe_transaction_service/analytics/tasks.py:1344-1364 | read and recompute over the fleet differ by the Safes not seeded yet and by rows of Safes that are gone, and by nothing else |
| `NativeTotals.ThreeWaysAgree` | safe_transaction_service/analytics/tasks.py:1344-1364 | with no failure and a row per Safe the three ways give the same pair |
| `NativeTotals.ShardedTotals` | safe_transaction_service/analytics/tasks_shards.py:430-450 | sixteen tasks and the reduce, none failing, total the whole fleet |
| `NativeTotals.TotalThreeWays` | safe_transaction_service/analytics/tasks.py:1344-1364 | all three run over one history cut at the watermark return the same wei and the same count |
| `Erc20Balances.SeedAndDeltaAgree` | safe_transaction_service/analytics/tasks.py:2037-2057 | the candidate query's OR form and the delta's row comparison (line 2139) are the same order |
| `Erc20Balances.PairBalanceIsTheTwoLegs` | safe_transaction_service/analytics/tasks.py:2065-2078 | a balance is what the Safe received of the token less what it sent, over the transfer table through the block |
| `Erc20Balances.PlanFromListing` | safe_transaction_service/analytics/tasks.py:2503-2522 | filtering the Safe table in (created, address) order and capping is the plan |
| `Erc20Balances.PlanIsARange` | safe_transaction_service/analytics/tasks.py:2503-2522 | capped or not, a run seeds exactly the Safes between the marker and the boundary it ends up with |
| `Erc20Balances.PlanTakesItsFill` | safe_transaction_service/analytics/tasks.py:2503-2522 | a completed run takes up as many of the Safes past the marker as the cap allows and leaves exactly the others for the next |
| `Erc20Balances.RetryCoversCrashedPlan` | safe_transaction_service/analytics/tasks.py:2503-2529 | a retry at the same marker covers every Safe the crashed run seeded, however many appeared or went in between |
| `Erc20Balances.SeedStores` | safe_transaction_service/analytics/tasks.py:2324-2349 | a seeded Safe's pairs hold its balance at the block, existing pairs win, other Safes are untouched and no zero is stored |
| `Erc20Balances.DeltaStores` | safe_transaction_service/analytics/tasks.py:2120-2159 | each pair of a covered Safe gains exactly the window's flow, whether it has, gains or loses a row; others keep theirs; no zero is stored |
| `Erc20Balances.SeedExtends` | safe_transaction_service/analytics/tasks.py:2522-2529 | seeding extends what stands at the watermark from the Safes seeded so far to all within the plan's boundary |
| `Erc20Balances.DeltaAdvances` | safe_transaction_service/analytics/tasks.py:2352-2387 | the delta moves all of them, and only them, from the watermark to the head |
| `Erc20Balances.StandsIsFrozen` | safe_transaction_service/analytics/tasks.py:1952-1972 | new blocks, new Safes above the boundary and Safes that go disturb none of it |
| `Erc20Rollup.PairTable.SumUpto` | safe_transaction_service/analytics/tasks.py:2297-2321 | summing by batches of addresses is summing over the whole list |
| `Erc20Rollup.PairTable.ApplyDelta` | safe_transaction_service/analytics/tasks.py:2352-2387 | the upsert and the delete of what it left at zero are together the whole delta; the two counts are the pairs it touched and those of them left without a row |
| `Erc20Rollup.PairTable.Run` | safe_transaction_service/analytics/tasks.py:2436-2587 | one pass over any state the protocol allows: refused on each of its guards, and past them dead exactly when it is killed between seed and mark, otherwise completed; it computes its plan, takes exactly the protocol's steps, and rewrites the read model, which accounts for every pair |
| `Erc20Protocol.SoundKept` | safe_transaction_service/analytics/tasks.py:2436-2587 | every event keeps the invariant, an address that becomes a Safe blank included: Safes seeded so far hold exactly their balances at the watermark, and every plan in use still fits the Safe table |
| `Erc20Protocol.RollupEqualsRecompute` | safe_transaction_service/analytics/tasks.py:2436-2587 | after any sequence of capped runs, deaths, retries, new blocks, dropped Safes and Safes new or returning blank: for each Safe within the marker and each token the stored balance is the from-scratch sum at the watermark, and no zero row is stored |
| `Erc20Protocol.RollupEqualsTransferSums` | safe_transaction_service/analytics/tasks.py:2065-2078 | in the terms of the transfer table: that balance is the sum of the query's two legs through the watermark |
| `Erc20Returns.ReturningIsRightExactlyWhen` | safe_transaction_service/analytics/tasks.py:2324-2349 | the seed of an address that becomes a Safe is right for every history exactly when no pair of it is stored |
| `Erc20Returns.PlannedReturnIsRightExactlyWhen` | safe_transaction_service/analytics/tasks.py:2522-2532 | and of one that leaves and returns during a run, exactly when the run's plan does not list it or the run does not move the watermark |
| `Erc20Returns.ReturningSafeKeepsItsOldBalance` | safe_transaction_service/analytics/tasks.py:1771-1779 | the code checks neither: a Safe dropped with tokens, paid while gone and indexed again is published at its old balance |
| `Erc20Protocol.CompletedRunMovesMarker` | safe_transaction_service/analytics/tasks.py:2531-2545 | a completed run moves watermark and marker forward over everything it seeded |
| `TokenHoldings.ColumnTotals` | safe_transaction_service/analytics/tasks.py:2177-2192 | the columns of the read model sum to the positive pairs, the negative pairs and the positive amounts of existing Safes |
| `TokenHoldings.EmptyTableHasNoRows` | safe_transaction_service/analytics/tasks.py:2177-2192 | an empty pair table has no rows |
| `TokenHoldings.StoringAPairMovesItsRow` | safe_transaction_service/analytics/tasks.py:2177-2192 | what each row is: a new pair of an existing Safe moves the row of its own token only, by one holder and its amount when positive and one negative pair when negative; a pair without a Safe moves nothing |
| `TokenHoldings.ChainLevelCounts` | safe_transaction_service/analytics/tasks.py:2399-2433 | the figures for the chain, counted over the pairs alone: tokens some Safe holds, Safes that hold any, negative pairs and pairs without a Safe |
| `TokenHoldings.EveryPairIsCounted` | safe_transaction_service/analytics/tasks.py:2399-2433 | holders, negative pairs, orphans and zero rows are all the pairs, so the published counts add up exactly when there is no zero row |
| `TokenHoldings.RollupConservesPairs` | safe_transaction_service/analytics/tasks.py:2399-2433 | and over the rollup they always do |
| `TokenHoldings.TokenIsListed` | safe_transaction_service/analytics/tasks.py:2172-2192 | a token has a row exactly while an existing Safe has a pair of it, and holders exactly while one holds some |
| `TokenHoldings.SafesAtMostHolders` | safe_transaction_service/analytics/tasks.py:2194-2199 | Safes holding anything never exceed total holders, nor the fleet |
| `DailyMarks.DayTables.Populate` | safe_transaction_service/analytics/tasks.py:4633-4653 | failures are isolated: what failed is exactly what was run without success, and a death leaves the later steps untouched |
| `DailyMarks.DayTables.Upsert` | safe_transaction_service/analytics/tasks.py:4554-4731 | the whole run, dying anywhere: the day's two rows, the report and what is really in the tables afterwards |
| `DailyMarks.MarksAreSetExactlyWhen` | safe_transaction_service/analytics/tasks.py:4684-4722 | on a day with a catch-up row or without, a finished run leaves each mark set exactly when it was and the core did not run, or the report is good in what the mark covers; the row, if any, records the report |
| `DailyMarks.DoneRunsCompleteTheDay` | safe_transaction_service/analytics/tasks.py:4704-4722 | a run that finishes as done leaves both marks set |
| `DailyMarks.FullRunCompletesExactlyWhen` | safe_transaction_service/analytics/tasks.py:4621-4722 | in terms of the tables: a full run that survives leaves its day completed exactly when all six populators and the core succeed |
| `DailyMarks.GoodSweepCompletesTheDay` | safe_transaction_service/analytics/catchup/sweeper.py:170-243 | a sweep whose every step succeeds is done, sets both marks and removes the catch-up row |
| `DailyMarks.SweepRemovesItsRowExactlyWhenDone` | safe_transaction_service/analytics/catchup/sweeper.py:170-243 | an attempted sweep removes the catch-up row exactly when its run is done; one that finishes otherwise leaves its report recorded there |
| `DailyMarks.StepsAreAsked` | safe_transaction_service/analytics/tasks.py:4605-4619 | a run executes what it is asked for, each populator once |
| `DailyMarks.RunKeepsHonest` | safe_transaction_service/analytics/tasks.py:4684-4714 | full runs and retries of recorded failures over a standing core keep marks and record true of the tables, wherever they die |
| `DailyMarks.CompletedDaysAreComplete` | safe_transaction_service/analytics/catchup/sweeper.py:170-243 | over any sequence of nightly runs, sweeps, prunings and deaths, a day marked completed has all six populators and the core good |
| `DailyMarks.CoreMarkIsWrongExactlyWhen` | safe_transaction_service/analytics/tasks.py:4684-4714 | what one retry does to the core mark: it leaves it wrong only if it was set already, the core did not rerun and the traffic populator was executed again without success |
| `DailyMarks.CoreMarkStaysTrueExactlyWhen` | safe_transaction_service/analytics/catchup/sweeper.py:221-223 | before any of it runs: whatever follows, with no death between marks and record, the core mark stays true exactly when the traffic is not among recorded failures that a sweep would retry without the core under a core mark already set |
| `DailyMarks.CoreCompletedDaysHaveTheirCore` | safe_transaction_service/analytics/catchup/day.py:165-168 | so it is never wrong over histories in which no process dies between its marks and its record |
| `DailyMarks.StaleRecordSpoilsTheCoreMark` | safe_transaction_service/analytics/catchup/day.py:165-168 | and can be wrong over one in which it does |
| `DailyMarks.KilledCoreNeedsTheCore` | safe_transaction_service/analytics/tasks.py:4621-4625 | a killed run of the core leaves both marks clear, and no number of retries that skip the core sets either, except exactly when it died between clearing the marks and resetting a `core_ok` that was set |
| `DailyMarks.UnresetCoreIsRetriedWithout` | safe_transaction_service/analytics/tasks.py:4621-4625 | in that case the next sweep can skip the core and set both marks, and what they say is true of the tables |
| `DailyMarks.UntrustedRetryCompletesWrongly` | safe_transaction_service/analytics/catchup/sweeper.py:221-223 | why the sweeper checks the recorded core first: a retry of recorded failures without it can complete a day with an unrecorded failure |
| `DailyMarks.RecordedFailuresAreTheLatest` | safe_transaction_service/analytics/tasks.py:4689-4702 | the recorded failures are exactly the populators whose latest execution recorded in the row failed, over any runs, retries and deaths, and rows that come and go |
| `DailyMarks.ReportedFailuresAreTheLatest` | safe_transaction_service/analytics/tasks.py:4684-4702 | and what a finished run returns: those, this run included, when there is a row; without one only what failed in this call, with a core that counts as good only if this call ran it |
| `DayBackfill.Build` | safe_transaction_service/analytics/tasks_shards.py:1052-1107 | the chunks concatenate to the requested days in order, all of the chunk size but the last; a size of zero or less is one chunk; an empty range is refused |
| `DayBackfill.Summarise` | safe_transaction_service/analytics/tasks_shards.py:1384-1409 | what is written is the number of positions whose shard came back ok; the failures are exactly the other positions, in order, each under the date its shard reported or, for a lost shard, the day at its position, and the first fifty are published |
| `DayBackfill.Store.ReadToSupersede` | safe_transaction_service/analytics/tasks_shards.py:1042-1044 | the load that superseding begins with |
| `DayBackfill.Store.WriteSuperseded` | safe_transaction_service/analytics/tasks_shards.py:1045-1049 | the save it ends with: the whole copy it read, marked |
| `DayBackfill.Store.DispatchChunk` | safe_transaction_service/analytics/tasks_shards.py:1114-1140 | saves the chunk as running before it is submitted, accepted or not |
| `DayBackfill.Store.Advance` | safe_transaction_service/analytics/tasks_shards.py:1172-1260 | records the chunk, then hands off, refuses to, closes the run or marks the failed dispatch |
| `DayBackfill.Store.ReloadAfterFailure` | safe_transaction_service/analytics/tasks_shards.py:1255-1257 | the handler of a failed dispatch loads again, or falls back on its own copy when there is none |
| `DayBackfillRuns.FailedDispatchIsMarked` | safe_transaction_service/analytics/tasks_shards.py:1249-1260 | with nothing in between, a dispatch that raised leaves its chunk marked as failed to dispatch, the run closed and the rest of the manifest as it was |
| `DayBackfillRuns.StepKeepsOrder` | safe_transaction_service/analytics/tasks_shards.py:1172-1260 | every event, lost updates included, keeps submissions in order and at most one chunk out |
| `DayBackfillRuns.CallbackHandsOnOrCloses` | safe_transaction_service/analytics/tasks_shards.py:1172-1260 | a callback sends the next chunk, marked running, exactly when there is one, its copy is not superseded and no other run is the latest; in every other case it closes the run |
| `DayBackfillRuns.StepKeepsInv` | safe_transaction_service/analytics/tasks_shards.py:1172-1260 | every event but an overtaken write keeps the manifest's account of the chunks that finished |
| `DayBackfillRuns.EveryChainIsInOrder` | safe_transaction_service/analytics/tasks_shards.py:1114-1260 | in every reachable state at most one chunk is out and the days submitted are a prefix of the range, each once |
| `DayBackfillRuns.LateWriteIsAccountedExactlyWhen` | safe_transaction_service/analytics/tasks_shards.py:1022-1049 | a supersession's write, or a failed dispatch's, leaves an accurate manifest exactly when no callback committed since its read |
| `DayBackfillRuns.RunIsAccountedExactlyWhen` | safe_transaction_service/analytics/tasks_shards.py:1172-1260 | finished chunks are a prefix and the totals theirs in every state of a run exactly when no callback ever commits between the read and the write of a supersession or of such a handler |
| `DayBackfillRuns.EveryStateOfTheBackfill` | safe_transaction_service/analytics/tasks_shards.py:1172-1260 | in such a run, moreover, every finished chunk is recorded as reported, one result per day, at most one chunk is marked running, the failures are the first two hundred of all reported, and the run is closed once every chunk has finished |
| `DayBackfillRuns.OvertakenSupersessionLosesAChunk` | safe_transaction_service/analytics/tasks_shards.py:1042-1048 | and in a run where one does, the first chunk ends up running again and its day is gone from the totals |
| `DayBackfillRuns.StopsForGoodExactlyWhen` | safe_transaction_service/analytics/tasks_shards.py:1225-1247 | from any state, no continuation submits another chunk exactly when there is no next chunk, or nobody who will still write holds an unmarked manifest: the latest-run key can be lost, and then does not hold a run back |
| `DayBackfillRuns.SupersedeStopsExactlyWhen` | safe_transaction_service/analytics/tasks_shards.py:1022-1049 | so superseding stops the run for good exactly when no callback is at work with a copy it read before, and no failed dispatch's handler has one while a chunk is out |
| `DayBackfillRuns.OvertakenSupersessionIsLost` | safe_transaction_service/analytics/tasks_shards.py:1172-1260 | otherwise the supersession can be overwritten, and the run goes on |
| `DayBackfillRuns.OvertakenCallbackHandsOff` | safe_transaction_service/analytics/tasks_shards.py:1172-1260 | an overtaken callback still submits its next chunk exactly when it has one and its run is still the latest |
| `DayBackfillRuns.StoppedRunsSendNothing` | safe_transaction_service/analytics/tasks_shards.py:1232-1247 | a run superseded in every copy of its manifest submits no further chunk |
| `DayBackfillRuns.DisownedRunsSendNothing` | safe_transaction_service/analytics/tasks_shards.py:1232-1247 | one that is no longer the latest submits none for as long as the latest-run key is there |
| `DayWindows.ProbeIsLeast` | safe_transaction_service/analytics/tasks.py:4333-4347 | the probe finds the least number among the blocks at or after a time, and none exactly when there is none |
| `DayWindows.WindowsTile` | safe_transaction_service/analytics/tasks.py:4308-4348 | windows of different days never overlap and those of a range leave no gap, even on a chain whose clock runs backwards |
| `DayWindows.DaysAddUp` | safe_transaction_service/analytics/tasks.py:4008-4063 | daily counts sum, column by column, to the count of the whole range |
| `DayWindows.DayAttributionIsComplete` | safe_transaction_service/analytics/tasks.py:3996-4005 | proposed here plus indexed only is executed, every day |
| `DayWindows.CoreColumns` | safe_transaction_service/analytics/tasks.py:3996-4063 | column by column: new Safes, executed transactions and their wei, and the executed with a proposer and without, of the rows placed in the day's window |
| `DailyCounts.TallyIsSum` | safe_transaction_service/analytics/tasks.py:3996-4005 | an aggregate sums its column over the rows in the block range, each once |
| `DayWindows.WindowsAreExactExactlyWhen` | safe_transaction_service/analytics/tasks.py:4321-4324 | all windows hold exactly their day's blocks exactly when block numbers keep the days in order |
| `DayWindows.MonotoneChainsAreExact` | safe_transaction_service/analytics/tasks.py:4321-4324 | in particular on a chain whose timestamps never go back |
| `Erc721Ownership.CountsTellTheOwner` | safe_transaction_service/history/models.py:736-757 | over a lawful history the in-count exceeds the out-count by one for the owner and by nothing for anybody else |
| `Erc721Ownership.ZeroIsOwedItsMints` | safe_transaction_service/history/models.py:736-757 | for the zero address the difference goes the other way, so it is never listed |
| `Erc721Ownership.OwnedByIsOwnership` | safe_transaction_service/history/models.py:724-772 | the query returns exactly the tokens the address owns that pass the filter, once each, sorted by contract and id |
| `Erc721Ownership.OwnTransfersSuffice` | safe_transaction_service/history/models.py:736-757 | transfers between others do not matter |
| `Erc721Ownership.CountsIgnoreOrder` | safe_transaction_service/history/models.py:736-757 | nor does the order in which transfers were stored |
| `BulkInsert.FirstOfferWins` | safe_transaction_service/history/models.py:954-983 | one by one, the row stored for a key is the old one or else the first instance offered |
| `BulkInsert.BatchIsOneByOne` | safe_transaction_service/history/models.py:941-952 | whenever the batch goes through, going one by one would have stored the same rows and accepted every instance |
| `BulkInsert.FirstOccurrenceWinsExactlyWhen` | safe_transaction_service/history/models.py:954-983 | the first occurrence in the list is what is stored exactly when no later instance of a new key is its first decoded one |
| `BulkInsert.DecodedInstanceWins` | safe_transaction_service/history/models.py:954-971 | which two instances suffice to show |
| `BulkInsert.Tables.BulkCreate` | safe_transaction_service/history/models.py:941-952 | both tables or neither, and both exactly when no key repeats or exists |
| `BulkInsert.Tables.SaveDecoded` | safe_transaction_service/history/models.py:954-971 | decoded instances in order; the list and what was stored share out the original list, nothing lost or doubled |
| `BulkInsert.Tables.Store` | safe_transaction_service/history/models.py:916-989 | on either path the tables end with the old rows plus the first offer for each new key, the result lists exactly the rows inserted, and a decoded row is stored exactly for the parents inserted in this call |
| `ConfirmationBinding.CreationKeepsBindingExactlyWhen` | safe_transaction_service/history/signals.py:45-93 | a creation keeps bindings equal to hash matches exactly when it brings no binding to another transaction of its own |
| `ConfirmationBinding.CreationKeepsTrustExactlyWhen` | safe_transaction_service/history/signals.py:74-80 | and keeps every bound transaction trusted exactly when, in that case, the transaction is trusted already |
| `ConfirmationBinding.PreboundConfirmationIsNotTrusted` | safe_transaction_service/history/signals.py:74-80 | a confirmation that comes bound under no hash breaks both rules |
| `ConfirmationBinding.BoundTransactionsAreTrusted` | safe_transaction_service/history/signals.py:45-93 | after any history of creations bound by hash or not at all, a confirmation is bound exactly when its transaction is there, which is then trusted |
| `ConfirmationBinding.OrderDoesNotMatter` | safe_transaction_service/history/signals.py:45-93 | permuting the creations leaves the same bindings and the same trust |
| `ConfirmationBinding.ModifiedByTheLastThatNamesIt` | safe_transaction_service/history/signals.py:45-93 | a transaction was last modified by the last creation of its own or of a confirmation signed for it |
| `ConfirmationBinding.Tables.CreateTransaction` | safe_transaction_service/history/signals.py:63-73 | the waiting confirmations of that hash, and no others, are bound, and the transaction trusted when there are any |
| `ConfirmationBinding.Tables.CreateConfirmation` | safe_transaction_service/history/signals.py:74-93 | the branches of the handler, a confirmation that comes already bound included |
| `AbiIndex.IndexIsLastMatch` | safe_transaction_service/contracts/tx_decoder.py:225-252 | the index answers every selector as a last-match scan over all items would |
| `AbiIndex.PreferenceOrder` | safe_transaction_service/contracts/tx_decoder.py:623-631 | a hard-coded ABI beats every database one; among those, one with the lowest relevance number wins |
| `AbiIndex.TableIsTheLatestSaves` | safe_transaction_service/contracts/signals.py:42-65 | over any saves and deletions of any process, the shared table holds for each id the row of the latest save not deleted since |
| `AbiIndex.IndexedSelectorsStay` | safe_transaction_service/contracts/signals.py:42-65 | no sequence of saves and deletions changes or drops an indexed selector |
| `AbiIndex.NewSelectorsAreTheSavedOnes` | safe_transaction_service/contracts/signals.py:42-65 | a selector that a save brings in answers with that ABI's last function for it from then on |
| `AbiIndex.SelectorsMatchRebuildExactlyWhen` | safe_transaction_service/contracts/signals.py:42-65 | the running index has at least a rebuild's selectors, and the same ones exactly when each selector learnt is still defined somewhere |
| `AbiIndex.CreatesKeepSelectors` | safe_transaction_service/contracts/signals.py:42-65 | while rows are only created they are always the same |
| `AbiIndex.OwnAbiWinsExactlyWhen` | safe_transaction_service/contracts/tx_decoder.py:598-621 | the address's own ABI decides a selector it defines exactly when the index knows the selector at all |
| `AbiIndex.IndexAnswersTheRest` | safe_transaction_service/contracts/tx_decoder.py:598-621 | any other selector is answered from the index: without an address, without an ABI for it, or with one that lacks the selector |
| `AbiIndex.OwnAbiWinsExactlyWhenLearnt` | safe_transaction_service/contracts/tx_decoder.py:598-621 | over a process's life: exactly when it learnt some ABI with the selector, or one is hard-coded |
| `AbiIndex.RowSavedElsewhereIsNotConsulted` | safe_transaction_service/contracts/signals.py:42-65 | which it has not when another process saved the row |
| `AbiIndex.OwnAbiWins` | safe_transaction_service/contracts/tx_decoder.py:587-621 | so it always does when every save since the load was this process's own |
| `AbiIndex.Decoder.AddAbi` | safe_transaction_service/contracts/tx_decoder.py:266-279 | adds the selectors that were missing, keeps the others, and says whether it added any |
| `TransferIds.TraceRoundTrip` | safe_transaction_service/history/models.py:851-852 | a printed trace address reads back as itself, for every list of naturals |
| `TransferIds.ParentUndoesChild` | safe_transaction_service/history/models.py:1283-1303 | as strings, the parent of a child is where one started, for every string |
| `TransferIds.ChildIsTheChildExactlyWhen` | safe_transaction_service/history/models.py:1296-1303 | the child looked up is the trace tree's exactly below a non-root trace; below the root nothing stored is ever found |
| `TransferIds.ParentIsTheParentExactlyWhen` | safe_transaction_service/history/models.py:1283-1294 | the parent looked up is the trace tree's exactly two deep or more; one deep none is looked up |
| `TransferIds.FamilyIsFound` | safe_transaction_service/history/models.py:1283-1303 | over stored rows, the parent and child found are those of the trace tree, away from the root |
| `TransferIds.TraceTailIsThePattern` | safe_transaction_service/history/helpers.py:139-145 | checking the pieces between commas is matching the regular expression, whatever characters count as digits beyond the ASCII ones |
| `TransferIds.ValidIdsAreThePatterns` | safe_transaction_service/history/helpers.py:132-145 | an id is recognised exactly when it is a letter, 64 hex digits and a tail of that letter's pattern |
| `TransferIds.PrintedIdsParseBack` | safe_transaction_service/history/serializers.py:972-977 | every printed id is recognised and parsed into a query for its own kind, hash and index |
| `TransferIds.RowsKeepTheirKind` | safe_transaction_service/history/serializers.py:962-977 | rows of the ether, ERC-20 and ERC-721 tables are told apart, and each carries the id of its own kind |
| `TransferIds.IdsAreUnique` | safe_transaction_service/history/serializers.py:949-953 | two transfers with one id are of the same kind, transaction and place in it |
| `TransferIds.ValidIdsParse` | safe_transaction_service/history/views.py:903-914 | a recognised id never fails to parse, whatever script its digits are of |
| `TransferIds.ValidIdIsPrintedExactlyWhen` | safe_transaction_service/history/helpers.py:132-145 | a recognised id is some transfer's exactly when its hash is in lower case, its digits are ASCII, and it has no leading zeros and no empty first piece |
| `TransferIds.UpperCaseHashIsRecognised` | safe_transaction_service/history/helpers.py:139-145 | an id with an upper-case hash is recognised and never printed |
| `TransferIds.ForeignDigitIsRecognised` | safe_transaction_service/history/helpers.py:139-145 | so is one with a digit of another script, which asks for the same transfer as the ASCII digit |
| `TransferIds.LeadingZeroIsRecognised` | safe_transaction_service/history/helpers.py:139-145 | an id with a leading zero is recognised and asks for the same transfer as the one without it |
| `TransferIds.LeadingCommaIsRecognised` | safe_transaction_service/history/helpers.py:139-145 | an id whose trace begins with a comma is recognised and is nobody's |

## Left out

- NativeRuns.CarefulRunsAreSafe: assumes that each chunk writes where the rollup stands, which the code does not check; it follows when nobody starts a run by hand, and the failing cases and the exact condition of each write are in NativeManualStarts.
- NativeSafety.SoundKept: the same assumption, of the one event.
- NativeRuns.BackfillHandsOver: the same assumption, for the hand-over; `NativeManualStarts.HandOverIsSafeExactlyWhenStamped` is its exact condition.
- NativeProtocol.GenerationsKept: the lock's expiry and a save that interleaves with another process's save of the same manifest are not modelled; lock, manifest and dispatch change in one step.
- DayBackfillRuns.EveryStateOfTheBackfill: holds of runs without an overtaken write, which `DayBackfillRuns.RunIsAccountedExactlyWhen` shows to be all it holds of. The shards of a chunk are one unit, so leases and heartbeats do not appear; a callback's look at the latest-run key, its save and its submission are one step; a first dispatch that fails leaves its chunk marked running, as in the code.
- DailyMarks.CompletedDaysAreComplete: runs of one day follow one another; two processes on the same day at once are not modelled, nor are the backoff and attempt counters, which only decide whether a sweep tries.
- DailyMarks.DayTables.Upsert: unknown populator names, a ValueError in the code, cannot be written in the model.
- ConfirmationBinding.OrderDoesNotMatter: each creation with its handler is one step, so two concurrent transactions that miss each other are not modelled; the `modified` time follows the order, as `ConfirmationBinding.ModifiedByTheLastThatNamesIt` says, and is not part of the result.
- AbiIndex.PreferenceOrder: speaks of a rebuild in one process; the running index keeps its earlier choice for a selector until the process restarts. The decoder's TTL caches are not modelled.
- BulkInsert.Tables.Store: requires each decoded instance's parent in the list, as the callers do; `list.remove` raises otherwise.
- TransferIds.TraceRoundTrip: reading a stored trace models `int()` on ASCII digits only; signs, blanks, underscores and other scripts' digits, which Python also reads, are never stored.
- TransferIds.ParseId: reads what the recogniser lets through, digits of any script; the signs, blanks and underscores `int()` also reads are not among them.
- Erc20Protocol.RollupEqualsRecompute: asks that an address becomes a Safe blank, which the code does not check; Erc20Returns has the failing case and the exact conditions. It starts from the state a finished backfill hands over; the ERC-20 backfill's slices and whale walk are not modelled.
- Erc20Protocol.SoundKept: asks the same of the one event.
- Erc20Protocol.RollupEqualsTransferSums: asks the same of every event.
- The chunked native backfill is a state machine on values, not a class that edits a manifest: what interleaves is whole steps, and the manifest's key order and timestamps do not matter.
- The inline backfill, `--restart` and `--at-block` of the backfill command: they run outside the lock protocol, on an operator's word.
- The equality of a trace's `block_number` with its transaction's `block_id`, on which the seed and the delta queries silently agree: a movement has one block.
- The drift check and its random sample, orphan counting for native rows, snapshots as JSON, logging and metrics: reporting only.
- The populators' own SQL and the counts taken by timestamp (module transactions, ERC-20 transfers): independent aggregates with no property across calls.
- The catch-up gate, the bootstrap tick and its stages other than the native start: they decide when a modelled step happens.
- Reorganisations deeper than the safe head: the rollups refuse to run and the model has the refusal, not a repair.
- Redis, Celery and PostgreSQL themselves: a manifest is a record, the queue a multiset of messages, a query its meaning, a timeout a failure that may happen.
- Signature checks, EIP-712 hashing, ABI byte decoding, RPC clients, serializer fields, pagination and admin: no state that outlives a call.
