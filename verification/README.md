# Verified model of the coinjoin pipeline

A Dafny model of the parts of the coinjoin pipeline whose correctness does not show in any one
function: the liquidity accounting, the JoinMarket subset search, the persistent index and its
lock, the mainnet synchronization, the stage graph with its executor and failure policy, the wait
for S3 markers, the choice of block archive files, and the scoring of clusters and labels.

`dafny verify dfyconfig.toml` checks everything.

| module | what it models |
|---|---|
| `SubsetSearch` | the depth-limited search behind the JoinMarket heuristic, and what its three answers mean |
| `Liquidity`, `LiquidityConservation`, `WalletDecomposition` | classified coinjoins, the cumulative series, conservation, sums over wallets |
| `ExportedTransactions`, `LiquidityPremises`, `CoinjoinOrder`, `CoinjoinOrderLimits` | the export of blocks and the order of coinjoins, from which the premises of the accounting follow |
| `IndexLock`, `IndexLockLimits`, `IndexLockLateRemoval` | one writer or many readers by atomic renames, any number of jobs, any interleaving; exactly when exclusion fails, and a run in which it does |
| `WorkingCopy` | publish, restore and reconcile of the index, with a crash after any effect |
| `MainnetSync`, `MainnetSyncSafety`, `MainnetSyncRuns` | the six jobs of a synchronization, any number of runs, a crash after any effect, a dataset of parts; what is safe, when a run can finish, and what a killed job leaves |
| `BlockPacking`, `ReplaceBackup` | replacing raw block objects by compressed ones; replacing a backup in place |
| `StageGraph`, `StageExecutor`, `FailurePolicy`, `MarkerWait` | ordering, transitive blocking, bounded execution, cancellation and rollback, deadlines |
| `BlockArchive` | which archive files a parse or update needs, and chains of updates |
| `PartitionScoring`, `ProducerLabels` | pair counts and confusion matrices; labels that are all known or all unknown |
| `Common`, `MapSums` | options, results, sums |

Protocols are transition systems: a step is one effect on the shared files, on S3 or on the
clock; a job may die after each; `Run`, `Execution` or `Possible` say that a list of steps is
possible, and `Reached` or `After` is the state it leads to. Loops of the source are methods proved
against functions, and the lemmas are about those functions. Where the code does not keep a property
in all runs, the guard of the step that breaks it is named, and the property is proved to be lost
exactly with that step.

Facts a reader of the source may not expect:

- The lock of the index needs removal to hit what it was decided on. `clear_expired` takes an
  expiry it cannot read for passed and removes by name later, and unlocking removes an entry file by
  file; `LateRemovalBreaksExclusion` is a run of three jobs in which a live reader loses its entry
  that way. Only an entry that a dead job left behind, and that outlives the victim, prevents the harm
  (`ExclusionIsLostExactlyWhen`).
- The backup of the index runs under the shared lock, which admits a second backup;
  `OverlappingBackupsBreakIt` leaves a manifest without an archive, and
  `BackupBreaksExactlyWhen` says which step does.
- The pack job takes no lock; with two of them and a damaged upload `OverlappingPackersLoseABlock`
  loses a block. Overlap alone does not (`BlockIsLostExactlyWhen`).
- `discard_dataset` says that a killed job never leaves a partial dataset that the producer would
  refuse. It does: killed between its first and its last rename, a clear job leaves one that no later
  synchronization gets past until somebody deletes it (`KilledClearExactlyWhen`, with the run
  `KilledClearWedges`), and so does a restore killed while it fills (`KilledFillExactlyWhen`). A
  restore killed while it discards does no harm (`KilledDiscardGoesOn`).
- A restore after which the jobs can go on, while another run waits between its restore and its
  producer, can lose the dataset: the newer run synchronizes, and the older one then drops a backup
  before the newer one clears (`DatasetIsLostExactlyWhen`). Later jobs of the older run are harmless,
  because `ready.json` stops them. As long as only these jobs write the backups, equal run IDs alone
  already imply equal heights and resume bytes (`RunIdsDecide`).
- The coinjoin order of the report respects spending exactly when no coinjoin spends another of the
  same height that sorts after it (`EmulationOrderExactlyWhen`). In `SpenderMayComeFirst` it does not,
  and active liquidity starts below zero. The heights by which distances are counted ascend exactly
  when every coinjoin is confirmed (`OrderHeightsAscendExactlyWhen`): an unconfirmed one sorts last and
  counts as height 0.
- A backup of an index that was published beside leftover restore directories cannot be restored
  (`RestoreEndsComplete` gives the exact condition).
- When only the number of producer labels disagrees with the manifest, the labels become unknown
  but the records still name the producer as their source (`SourcesWithheldUnlessCountDiffers`).
- Of all full-run plans only an index backup with the reusable workflow leaves a dependency
  between jobs out of what the scheduler is told (`DependenciesReachSchedulerUnlessBackup`).

## Model

| member | source | states |
|---|---|---|
| SubsetSearch.UnlimitedSearchDecides | pipeline/exporters/heuristics.py:201-256 | without a depth limit the answer is True exactly when some assignment of values to buckets reaches every goal, for all non-negative values and goals |
| SubsetSearch.SubsetResultIsHonest | pipeline/exporters/heuristics.py:201-256 | with any limit True and False are never wrong, None comes only with a depth timeout, the counter stays within the limit plus one, and the inputs-exhausted branch is never taken |
| SubsetSearch.LimitOnlyCutsOff | pipeline/exporters/heuristics.py:213-254 | on any input the limited call returns the unlimited verdict if that needs no more steps than the limit, and times out otherwise |
| SubsetSearch.DecidedAnswerIsStable | pipeline/exporters/heuristics.py:213-254 | a decided answer is the same for every larger limit and for none |
| SubsetSearch.EveryValueCanBePlaced | pipeline/exporters/heuristics.py:201-256 | with at least one bucket, filling the goals with some values is possible exactly when it is possible placing all of them |
| SubsetSearch.Searcher.Search | pipeline/exporters/heuristics.py:213-254 | the recursive method with its shared depth counter computes the specified verdict and counter |
| SubsetSearch.JoinmarketSubsetResult | pipeline/exporters/heuristics.py:201-256 | the entry point sorts values and goals and returns the specified verdict |
| SubsetSearch.AscendingSorts | pipeline/exporters/heuristics.py:255-256 | the values searched are the given ones in order |
| SubsetSearch.GroupedInputValuesByAddress | pipeline/exporters/heuristics.py:169-177 | each address with a valued record, and no other, gets the sum of its records |
| SubsetSearch.AddressTotalNonNegative | pipeline/exporters/heuristics.py:169-177 | those sums are non-negative when the records are, as the search needs |
| Liquidity.SpenderIndex | pipeline/exporters/liquidity.py:75-81 | for any transactions the loop's index has exactly the outpoints somebody spends, each with the last transaction that spends it |
| Liquidity.BisectRightSeparates | pipeline/exporters/liquidity.py:84-97 | the position found separates the heights up to the given one from those above it |
| Liquidity.SpendDistanceCounts | pipeline/exporters/liquidity.py:84-97 | the distance is the number of coinjoins between creation and spend: by position for a coinjoin, by confirmation height otherwise |
| Liquidity.ClassifyCoinjoins | pipeline/exporters/liquidity.py:115-177 | the loop classifies every input and output as the specification does |
| Liquidity.PopSpent | pipeline/exporters/liquidity.py:213-215 | popping spent outpoints changes the map and the accumulator together |
| Liquidity.StoreUnmoved | pipeline/exporters/liquidity.py:220-226 | storing slow outputs changes the map and the accumulator together |
| Liquidity.ReportedStays | pipeline/exporters/liquidity.py:194-243 | what the seven lists say of the first coinjoins does not change with the coinjoins that follow |
| Liquidity.LiquiditySeries | pipeline/exporters/liquidity.py:194-243 | the loop computes the specified seven lists for the pool or any set of owners |
| Liquidity.SeriesAt | pipeline/exporters/liquidity.py:227-235 | entry k of every list is that of the ledger after the first k+1 coinjoins |
| LiquidityConservation.PoolSeriesConserve | pipeline/exporters/liquidity.py:194-243 | after every coinjoin interim is fees plus unspent stay and remix value, the unmoved window its slow part, and active liquidity fees plus fast remixes of the last window only |
| LiquidityConservation.PoolTotalsConserve | pipeline/exporters/liquidity.py:194-243 | the same of the accumulators after every prefix |
| LiquidityConservation.UnmovedIsOutstanding | pipeline/exporters/liquidity.py:206-226 | for any owners and event field the accumulator is the sum of the outpoint map, which holds exactly the slow outputs not yet spent |
| LiquidityConservation.InterimIsFeesPlusOutstanding | pipeline/exporters/liquidity.py:227-232 | interim liquidity is fees plus what stays or is still to be remixed |
| LiquidityConservation.ActiveIsNonNegative | pipeline/exporters/liquidity.py:227-235 | active liquidity is non-negative when the fees are |
| LiquidityConservation.FastRemixesAreRecent | pipeline/exporters/liquidity.py:185-187 | a fast remix that is still outstanding was created within the last window of coinjoins |
| WalletDecomposition.SeriesOfUnion | pipeline/exporters/liquidity.py:194-243 | for disjoint owner sets each of the seven lists of the union is the pointwise sum |
| WalletDecomposition.PoolIsSumOfWallets | pipeline/exporters/liquidity.py:298-309 | when every coin is owned, the pool's lists are the sums over all wallets |
| WalletDecomposition.UnmovedOfOwners | pipeline/exporters/liquidity.py:206-226 | a wallet's unmoved total is its own slow outputs that nobody has spent, given that inputs carry the owner of what they spend |
| LiquidityPremises.ClassifiedHistory | pipeline/exporters/liquidity.py:115-177 | any transactions in which outputs are unique, spent once and carried by their inputs, in any coinjoin order that respects spending, satisfy all premises of the accounting |
| ExportedTransactions.ExportedBlocks | pipeline/exporters/emulator_data.py:305-363 | the loop over blocks records the specified transactions |
| ExportedTransactions.ExportsExtend | pipeline/exporters/emulator_data.py:305-363 | reading on changes nothing exported before: recorded transactions stay in place, indexed outputs keep their value and address |
| ExportedTransactions.IndexHolds | pipeline/exporters/emulator_data.py:314-322 | every output read so far is in the index, with its value and address |
| ExportedTransactions.IndexOutputs | pipeline/exporters/emulator_data.py:314-322 | every numbered output is indexed under its outpoint |
| ExportedTransactions.ResolveInputs | pipeline/exporters/emulator_data.py:327-348 | each input gets the value and owner of the output it names, if that was seen |
| ExportedTransactions.InputCarriesOutput | pipeline/exporters/emulator_data.py:305-363 | an exported input has the value and wallet of the output it spends |
| ExportedTransactions.ExportIsChain | pipeline/exporters/emulator_data.py:305-363 | blocks in spending order are exported with unique outpoints, each spent at most once and carried by its spender |
| ExportedTransactions.EmulationConserves | pipeline/exporters/emulator_data.py:305-363 | from blocks to report, in whatever order the transactions are written: the pool series of any exported emulation conserve value at every coinjoin |
| ExportedTransactions.EmulationDecomposes | pipeline/exporters/emulator_data.py:305-363 | and the series of disjoint wallet groups add up |
| LiquidityPremises.ChainRearranged | pipeline/exporters/liquidity.py:75-81 | the premises on transactions do not depend on the order of their list |
| CoinjoinOrder.OrderRespectsSpendingExactlyWhen | pipeline/exporters/liquidity.py:64-72 | the sort by height, broadcast time and ID puts every coinjoin after those it spends exactly when each of these has the smaller key |
| CoinjoinOrder.EmulationOrderExactlyWhen | pipeline/exporters/liquidity.py:64-72 | for blocks listed by height, exactly when no coinjoin spends one of its own height that sorts after it |
| CoinjoinOrder.ReportConserves | pipeline/exporters/liquidity.py:455-461 | then the pool series conserve value in the order the report really uses |
| CoinjoinOrderLimits.SpenderMayComeFirst | pipeline/exporters/liquidity.py:64-72 | it need not: for a block whose coinjoin "a" spends its coinjoin "b", neither with a broadcast time, no spending order is the report's, and the active liquidity starts at minus the value of the spender's output |
| CoinjoinOrder.OrderHeightsAscendExactlyWhen | pipeline/exporters/liquidity.py:123 | the heights that distances are counted by ascend in the report's order exactly when every coinjoin is confirmed or no confirmed one lies above height 0 |
| CoinjoinOrder.ReportDistanceCounts | pipeline/exporters/liquidity.py:84-97 | so with all coinjoins confirmed, in the report's own order, a spend outside the mix is as far away as coinjoins after the creation confirm no later than it |
| IndexLock.WritersExclude | src/coinjoin_pipeline/execution/pbs/index_store.py:115-185 | over every run of any number of jobs in which nobody empties an entry that a live job counts on, a job that holds the index for writing is the only holder |
| IndexLock.PunctualRunsAreHarmless | src/coinjoin_pipeline/execution/pbs/index_store.py:128-145 | if what is opened for removal is always what the job decided to remove, nobody ever empties such an entry |
| IndexLockLimits.ExclusionIsLostExactlyWhen | src/coinjoin_pipeline/execution/pbs/index_store.py:115-185 | after any run without harm a step opens the way to a writer that is not alone if and only if it empties the entry of a live job that writes already, or in whose lifetime no entry of a dead job stays in the way |
| IndexLock.NoNewReaders | src/coinjoin_pipeline/execution/pbs/index_store.py:152-180 | in such runs, while a live writer waits for the readers no further job starts reading |
| IndexLockLateRemoval.LateRemovalBreaksExclusion | src/coinjoin_pipeline/execution/pbs/index_store.py:152-185 | a possible run of three jobs, none of which dies or expires, in which one reads while another writes: a reader steps back for a writer, a second writer that has to wait takes the half-removed entry for expired, and removes the one that the reader has created anew |
| WorkingCopy.CompleteIsOneGeneration | src/coinjoin_pipeline/execution/pbs/index_store.py:189-222 | in every reachable state a complete copy is, content by content, one publication, although the inventory compares sizes |
| WorkingCopy.BackupIsOneGeneration | src/coinjoin_pipeline/execution/pbs/index_store.py:259-283 | every backup of a complete copy is one publication |
| WorkingCopy.RestoreEndsComplete | src/coinjoin_pipeline/execution/pbs/index_store.py:285-303 | the check that ends a restore passes exactly when the leftovers beside the index are those listed at publication |
| WorkingCopy.LeftoversRefuseRestore | src/coinjoin_pipeline/execution/pbs/index_store.py:285-303 | a possible run in which it does not: the backup lists a leftover directory |
| WorkingCopy.PublishedListFits | src/coinjoin_pipeline/execution/pbs/index_store.py:212-222 | a published file list is the inventory of the published files |
| WorkingCopy.SizesCannotTell | src/coinjoin_pipeline/execution/pbs/index_store.py:66-85 | without the marker, sizes would accept files of no publication |
| WorkingCopy.IndexStore.Publish | src/coinjoin_pipeline/execution/pbs/index_store.py:212-222 | a publish that is not killed leaves a complete copy of this configuration, these files and this manifest; a killed one leaves the marker |
| WorkingCopy.IndexStore.Restore | src/coinjoin_pipeline/execution/pbs/index_store.py:285-303 | a restore ends with the backup's content complete, or says why not; a killed one leaves the marker |
| WorkingCopy.IndexStore.Reconcile | src/coinjoin_pipeline/execution/pbs/index_store.py:305-313 | it succeeds exactly when the copy ends complete, and leaves a complete one alone |
| MainnetSyncSafety.DiscardsOnlyWhatIsBacked | src/coinjoin_pipeline/execution/mainnet_runtime.py:1296-1324 | over every run in which no restore after which the jobs can go on takes the dataset beside a run that waits for its producer, nothing of the dataset is deleted unless all three backups stand with their archives from one checkpoint, the own one in the clear job |
| MainnetSyncRuns.DatasetIsLostExactlyWhen | src/coinjoin_pipeline/execution/mainnet_runtime.py:321-350 | the premise is exact: after any such run a step opens the way to deleting a dataset that is not backed up exactly when it is such a restore |
| MainnetSyncSafety.RestoreUsesOneCheckpoint | src/coinjoin_pipeline/execution/mainnet_runtime.py:749-848 | a restore discards and fills only while three matching backups stand, without any premise |
| MainnetSync.RunIdsDecide | src/coinjoin_pipeline/execution/mainnet_runtime.py:794-811 | equal run IDs of the three manifests imply equal heights and resume bytes, so those comparisons never refuse |
| MainnetSyncSafety.ResetAlone | src/coinjoin_pipeline/execution/mainnet_runtime.py:321-350 | the locks, the cleared ready.json and the premise leave no other run active when such a restore decides what to do |
| MainnetSync.IndexLockKept | src/coinjoin_pipeline/execution/mainnet_runtime.py:1384-1394 | every working job holds the index lock its stage asks for, also after other jobs died |
| MainnetSync.DatasetLockKept | src/coinjoin_pipeline/execution/mainnet_runtime.py:315-334 | the run between claiming and releasing is the one the dataset lock names |
| MainnetSync.SlotsStayHonest | src/coinjoin_pipeline/execution/mainnet_runtime.py:532-569 | each manifest in S3 has the archive of its own run |
| MainnetSyncSafety.OneActiveKept | src/coinjoin_pipeline/execution/mainnet_sync.py:150-177 | at most one run is between its restore and the end of its checkpoint with a ready.json of its own |
| MainnetSyncSafety.DoneIsBackedKept | src/coinjoin_pipeline/execution/mainnet_runtime.py:339-350 | while done.json names a run, the three backups are that run's and no run that could replace them is active |
| MainnetSyncRuns.SynchronizationSucceeds | src/coinjoin_pipeline/execution/mainnet_sync.py:267-286 | from any quiet state in which its restore can go through and leaves no partial dataset alone, one synchronization can go through all six jobs and ends with its backups in place, the dataset cleared and the next synchronization possible |
| MainnetSyncRuns.RestoreFinishesExactlyWhen | src/coinjoin_pipeline/execution/mainnet_runtime.py:749-848 | a restore that has taken the dataset can go through, whatever else happens, exactly when the three backups belong together, or the index is not unfinished and there is something, or there is neither a backup nor an archived block |
| MainnetSyncRuns.SynchronizationFinishesExactlyWhen | src/coinjoin_pipeline/execution/mainnet_runtime.py:876-903 | and its run can come to the end of its clear job exactly when moreover the dataset is not a partial one that the restore skips and the producer or the parser refuses |
| MainnetSyncSafety.KilledClearExactlyWhen | src/coinjoin_pipeline/execution/mainnet_runtime.py:1306-1324 | a clear job killed while it discards leaves such a dataset exactly when some of its parts are gone and not all, and exactly then the state is frozen |
| MainnetSyncRuns.KilledClearWedges | src/coinjoin_pipeline/execution/mainnet_runtime.py:1306-1324 | that happens: a possible run in which a clear job dies after its first rename |
| MainnetSyncSafety.KilledFillExactlyWhen | src/coinjoin_pipeline/execution/mainnet_runtime.py:749-848 | a restore killed while it fills does so exactly when some parts are in place and not all, unless Core's is, with its first block file, and neither the index's configuration nor its parsed data is |
| MainnetSyncSafety.KilledDiscardGoesOn | src/coinjoin_pipeline/execution/mainnet_runtime.py:749-848 | after a restore killed while it discards the next synchronization can go on |
| MainnetSyncSafety.FrozenForGood | src/coinjoin_pipeline/execution/mainnet_runtime.py:876-903 | a frozen state stays frozen over every continuation |
| MainnetSyncSafety.FrozenMeansNothingMoves | src/coinjoin_pipeline/execution/mainnet_runtime.py:876-903 | and in one no job indexes, backs up, records, restores or clears anything |
| MainnetSyncRuns.NextRestoreFills | src/coinjoin_pipeline/execution/mainnet_runtime.py:749-848 | after a synchronization the next restore comes to fill the cleared dataset from the backups |
| MainnetSyncRuns.EarlyRestoreLosesTheDataset | src/coinjoin_pipeline/execution/mainnet_runtime.py:1296-1304 | two runs suffice, on an empty dataset: the second restore before the first producer opens the way to such a deletion |
| BlockPacking.NoBlockIsLost | src/coinjoin_pipeline/execution/mainnet_runtime.py:1199-1232 | whatever dies when and however many packers overlap, each block file is on disk or its content is in S3, raw or packed, unless a damaged upload replaces what somebody relied on |
| BlockPacking.BlockIsLostExactlyWhen | src/coinjoin_pipeline/execution/mainnet_runtime.py:1199-1232 | after any run without one a step loses a block, at once or with one more removal, exactly when it is such an upload: the raw object gone, or another packer past its check |
| BlockPacking.ApartIsHarmless | src/coinjoin_pipeline/execution/mainnet_runtime.py:1234-1252 | packers that keep off each other's names never come to that |
| BlockPacking.EverySidecarIsServed | src/coinjoin_pipeline/execution/mainnet_runtime.py:1199-1232 | each sidecar has a raw object or a packed one that unpacks to its checksum |
| BlockPacking.RemovesOnlyPrunedFiles | src/coinjoin_pipeline/execution/mainnet_runtime.py:1234-1252 | no raw object of a file still on disk is removed, because S3 is listed before the disk |
| BlockPacking.OverlappingPackersLoseABlock | src/coinjoin_pipeline/execution/mainnet_runtime.py:1234-1252 | a possible run of two packers after which a block is nowhere |
| ReplaceBackup.ManifestHasItsArchive | src/coinjoin_pipeline/execution/mainnet_runtime.py:532-569 | at every point of any backups, overlapping or not, a manifest means an archive of the recorded size (and content), unless a step replaces or removes an archive under a standing manifest or a job past its check |
| ReplaceBackup.BackupBreaksExactlyWhen | src/coinjoin_pipeline/execution/mainnet_runtime.py:532-569 | after any run without such a step, a step leads to a manifest whose archive is missing or differs, at once or when somebody checks and publishes, exactly when it is one; for sizes and for contents |
| ReplaceBackup.LoneBackupsStand | src/coinjoin_pipeline/execution/mainnet_runtime.py:532-569 | backups that do not overlap never do so, and their archive has the recorded checksum exactly when the store kept the stream |
| ReplaceBackup.RestoresArePublishedContents | src/coinjoin_pipeline/execution/mainnet_runtime.py:571-611 | a restored directory appears only with content that some backup published, whatever the store did |
| ReplaceBackup.OverlappingBackupsBreakIt | src/coinjoin_pipeline/execution/pbs/index_store.py:259-283 | a possible run of two backups that leaves a manifest without an archive |
| ReplaceBackup.Prefix.Backup | src/coinjoin_pipeline/execution/mainnet_runtime.py:532-569 | a backup ends with its manifest and an archive of its size, or with no manifest at all, or with the old pair untouched |
| ReplaceBackup.Prefix.Restore | src/coinjoin_pipeline/execution/mainnet_runtime.py:571-611 | it puts in place exactly the manifest's content, and refuses exactly when the archive does not match |
| StageGraph.Ordered | src/coinjoin_pipeline/execution/stages.py:88-107 | the loop returns the specified order or error |
| StageGraph.OrderIsLegal | src/coinjoin_pipeline/execution/stages.py:88-107 | the order is a permutation with every stage after its dependencies |
| StageGraph.CycleErrorIffCyclic | src/coinjoin_pipeline/execution/stages.py:88-107 | the cycle error is raised exactly when some stage depends on itself, directly or through others |
| StageGraph.LegalOrderIsKept | src/coinjoin_pipeline/execution/stages.py:88-107 | a list already in order is returned unchanged |
| StageGraph.DependentsOf | src/coinjoin_pipeline/execution/stages.py:126-141 | the single pass computes the specified list |
| StageGraph.DependentsAreTransitive | src/coinjoin_pipeline/execution/stages.py:126-141 | that list holds exactly the stages that depend on the name, directly or through others |
| StageGraph.DependentsComeOnce | src/coinjoin_pipeline/execution/stages.py:126-141 | each of them once |
| StageGraph.ScheduledStages | src/coinjoin_pipeline/execution/stages.py:122-124 | the scheduled stages are the PBS stages |
| StageGraph.DependencyIdsAreOfJobs | src/coinjoin_pipeline/execution/stages.py:143-148 | the IDs are those of the dependencies that have jobs |
| StageGraph.FullRunPlanIsLegal | src/coinjoin_pipeline/execution/stages.py:188-285 | every full-run plan, for every workflow and any task name, is accepted and kept in its own order |
| StageGraph.AnalysisPlanIsLegal | src/coinjoin_pipeline/execution/stages.py:176-185 | so is every local analysis plan |
| StageExecutor.ExecuteAnalysis | src/coinjoin_pipeline/execution/stage_executor.py:52-101 | for every legal graph, completion order and failure: the log obeys the law below, everything submitted is awaited, "no stage is ready" never happens, and it returns normally exactly when every stage completed |
| StageExecutor.CancelRunning | src/coinjoin_pipeline/execution/stage_executor.py:33-49 | cancellations keep the law: running stages only, each at most once |
| StageExecutor.SubmittedOnce | src/coinjoin_pipeline/execution/stage_executor.py:66-82 | no stage is submitted twice |
| StageExecutor.DependenciesFinishFirst | src/coinjoin_pipeline/execution/stage_executor.py:67-74 | each dependency has completed before a stage is submitted |
| StageExecutor.NothingStartsAfterFailure | src/coinjoin_pipeline/execution/stage_executor.py:66-82 | nothing is submitted after the first failure |
| StageExecutor.CancelledOnce | src/coinjoin_pipeline/execution/stage_executor.py:33-49 | a stage is cancelled at most once, while it runs, after a failure |
| StageExecutor.AtMostMaxWorkers | src/coinjoin_pipeline/execution/stage_executor.py:66-82 | at no moment more than the given number of stages run |
| StageExecutor.EverySubmittedIsAwaited | src/coinjoin_pipeline/execution/stage_executor.py:83-96 | each submitted stage's wait ends |
| FailurePolicy.WaitInOrder | src/coinjoin_pipeline/execution/s3_workflow.py:131-143 | stages are awaited in order up to the first failure, which cancels the blocked ones of the remaining jobs and leaves the others |
| FailurePolicy.CancelBlocked | src/coinjoin_pipeline/execution/s3_workflow.py:56-76 | the loop cancels each remaining blocked job once and no other |
| FailurePolicy.CancelsExactlyTheDependents | src/coinjoin_pipeline/execution/s3_workflow.py:56-76 | of all submitted jobs exactly the transitive dependents of the failed stage are cancelled |
| FailurePolicy.NothingLeftIsDoomed | src/coinjoin_pipeline/execution/s3_workflow.py:56-76 | no job left running depends, even through others, on the failed or a cancelled stage |
| FailurePolicy.S3StageRunner.Submit | src/coinjoin_pipeline/execution/s3_submission.py:110-120 | a job is noted in list and dictionary together, also when what follows fails |
| FailurePolicy.S3StageRunner.SubmitAll | src/coinjoin_pipeline/execution/s3_submission.py:97-120 | every scheduled stage gets a job, each told the IDs of its dependencies that have jobs, and the report never lacks one |
| FailurePolicy.SubmitGraph | src/coinjoin_pipeline/execution/s3_submission.py:278-290 | when submission breaks off, every job ID obtained is passed to cancellation, newest first, and otherwise none |
| FailurePolicy.Rollback | src/coinjoin_pipeline/execution/s3_markers.py:54-79 | the loop tries every job in reverse order and returns exactly the unsuccessful ones |
| FailurePolicy.ReversedOnce | src/coinjoin_pipeline/execution/s3_markers.py:54-79 | each job is tried exactly as often as it was submitted |
| FailurePolicy.ReversedAt | src/coinjoin_pipeline/execution/s3_markers.py:54-79 | the newest first |
| FailurePolicy.UnconfirmedJobs | src/coinjoin_pipeline/execution/s3_markers.py:54-79 | a job is reported exactly when an attempt on it was not confirmed |
| FailurePolicy.ReportOfPlanJoinsJobs | src/coinjoin_pipeline/execution/s3_submission.py:259-261 | the report of every full-run plan depends on jobs only |
| FailurePolicy.DependenciesReachSchedulerUnlessBackup | src/coinjoin_pipeline/execution/s3_submission.py:218-257 | dependencies between jobs all reach the scheduler exactly when the plan is not an index backup with the reusable workflow |
| MarkerWait.WaitForMarker | src/coinjoin_pipeline/storage/s3.py:416-475 | the loop computes the specified course over any trace and stops with the first round that ends it |
| MarkerWait.EndsWithAMarker | src/coinjoin_pipeline/storage/s3.py:439-443 | it returns only on a poll that saw the done marker and not the failed one, and fails exactly on one that saw the failed one |
| MarkerWait.ExecutionDeadlineStartsOnce | src/coinjoin_pipeline/storage/s3.py:454-456 | the execution deadline is that of the first running report |
| MarkerWait.ExecutionDeadlineStays | src/coinjoin_pipeline/storage/s3.py:454-456 | and is never moved |
| MarkerWait.EndedAfterOneMorePoll | src/coinjoin_pipeline/storage/s3.py:471-474 | ending without a marker comes exactly one readable poll after a terminal report |
| MarkerWait.GraceEndsTheWait | src/coinjoin_pipeline/storage/s3.py:471-474 | the next readable poll after a terminal report ends the wait |
| MarkerWait.GoesOnExactlyWhen | src/coinjoin_pipeline/storage/s3.py:457-470 | past a deadline the wait goes on exactly for a queued job that never ran and without start timeout |
| MarkerWait.EndsInTime | src/coinjoin_pipeline/storage/s3.py:433-475 | with a start timeout the clock of a wait that goes on is below start timeout plus one polling gap plus timeout |
| MarkerWait.PollsAreBounded | src/coinjoin_pipeline/storage/s3.py:433-475 | so the number of polls is bounded |
| MarkerWait.QueueTimeIsUnbounded | src/coinjoin_pipeline/storage/s3.py:457-470 | without a start timeout a job queued for ever is waited for, for ever |
| BlockArchive.SelectionKeepsCoverage | src/coinjoin_pipeline/execution/block_archive.py:160-172 | the chosen files cover the heights to be verified exactly when the whole archive does |
| BlockArchive.ChosenAreContiguous | src/coinjoin_pipeline/execution/block_archive.py:160-172 | the chosen files pass the contiguity check |
| BlockArchive.RequireContiguous | src/coinjoin_pipeline/execution/block_archive.py:107-117 | the loop passes exactly when the files from the first are numbered without a gap, and names the gap |
| BlockArchive.LastFileNeededIsHighest | src/coinjoin_pipeline/execution/block_archive.py:128-134 | no file with a height up to the target plus the margin is beyond the one found |
| BlockArchive.LastFileNeededIsUpTo | src/coinjoin_pipeline/execution/block_archive.py:128-134 | the one found is such a file |
| BlockArchive.IndexSha256 | src/coinjoin_pipeline/execution/block_archive.py:120-125 | the digest lines are those of the files through the last |
| BlockArchive.Sweep | src/coinjoin_pipeline/execution/block_archive.py:229-233 | the sorted sweep finds the first uncovered height |
| BlockArchive.Verify | src/coinjoin_pipeline/execution/block_archive.py:212-237 | it accepts exactly when every height of the interval lies in some range, and names the first that does not |
| BlockArchive.LastFileNeverDecreases | src/coinjoin_pipeline/execution/block_archive.py:175-192 | over any chain of a parse and updates the recorded last file never decreases |
| BlockArchive.IndexedFilesAreUnchanged | src/coinjoin_pipeline/execution/block_archive.py:160-172 | an accepted update sees every indexed file with the same checksum |
| BlockArchive.EveryHeightWasDownloaded | src/coinjoin_pipeline/execution/block_archive.py:160-192 | every height from 0 to the current maximum was in a file some run downloaded, which the archive still holds unchanged |
| PartitionScoring.PairsByPartition | pipeline/exporters/comparison.py:188-199 | grouping, sorting and pairing give exactly the pairs with a common label |
| PartitionScoring.PairCount | pipeline/exporters/comparison.py:188-199 | their number is the sum of n(n-1)/2 over the groups |
| PartitionScoring.EvaluateClusters | pipeline/exporters/comparison.py:202-251 | true and false pairs add up to each partition's pairs, and the mixed groups are exactly the overmerged clusters and undermerged wallets |
| PartitionScoring.NoFalsePositives | pipeline/exporters/comparison.py:226-241 | no false positive pair exactly when no cluster is overmerged |
| PartitionScoring.NoFalseNegatives | pipeline/exporters/comparison.py:226-241 | no false negative pair exactly when no wallet is undermerged |
| PartitionScoring.PerfectScoreIsSamePartition | pipeline/exporters/comparison.py:226-241 | neither exactly when the partitions coincide |
| ProducerLabels.ParseLabels | pipeline/exporters/emulator_data.py:475-524 | the positives are the sole matches of confirmed rounds, or the broadcasts found; a conflicting round makes the source unusable |
| ProducerLabels.LoadProducerLabels | pipeline/exporters/emulator_data.py:268-302 | labels stay independent exactly when they were, the source can be parsed, and their number is the declared one if any; a usable source gives its positives even when the number differs |
| ProducerLabels.BuildEmulatorData | pipeline/exporters/emulator_data.py:406-472 | the result as specified, with counts |
| ProducerLabels.IndependentLabelsAreComplete | pipeline/exporters/emulator_data.py:406-472 | if the result stays independent, the positives are exactly the producer's, as many as declared, and nothing is unknown |
| ProducerLabels.DependentLabelsAreUnknown | pipeline/exporters/emulator_data.py:256-265 | otherwise every transaction is unknown |
| ProducerLabels.IndependentExactlyWhen | pipeline/exporters/emulator_data.py:406-446 | the exact condition under which labels stay independent |
| ProducerLabels.SourcesWithheldUnlessCountDiffers | pipeline/exporters/emulator_data.py:295-302 | label sources are withheld with the labels except when only the count disagrees and a positive was exported |
| ProducerLabels.CountDiffers | pipeline/exporters/emulator_data.py:295-302 | one exported positive where two are declared: unknown, with its source named |
| ProducerLabels.ConfusionMatrix | pipeline/exporters/comparison.py:130-185 | the loop counts each cell of the matrix, and there is a matrix exactly for independent labels |
| ProducerLabels.MatrixAccountsForEverything | pipeline/exporters/comparison.py:130-185 | on independent data unknown is 0, true positives and false negatives are the labels, true and false positives the detections in scope |

## Left out

Premises and idealisations:

- IndexLock.WritersExclude: holds over the runs without a harmful removal; IndexLockLimits.ExclusionIsLostExactlyWhen is the other half, with no premise. That a job is gone when the clock reaches its expiry is what the scheduler's walltime gives, and exclusion itself does not rest on it. File operations do not fail.
- MainnetSyncSafety.DiscardsOnlyWhatIsBacked: assumes that only these six jobs write the three backups; `IndexStore.backup` can write the index backup too, under a lock that a synchronization's clear job excludes only while it runs. Its other premise is exact (DatasetIsLostExactlyWhen).
- MainnetSync.RunIdsDecide: assumes that only these six jobs write the three backups, for the same reason.
- BlockPacking.NoBlockIsLost: holds over the runs without a harmful upload; BlockIsLostExactlyWhen is the other half. Restores of the Core working copy are not among its steps.
- ReplaceBackup.ManifestHasItsArchive: holds over the runs without a harmful step; BackupBreaksExactlyWhen is the other half.
- WorkingCopy.CompleteIsOneGeneration: one job at a time writes the copy, which is what the lock is for; backups are taken of complete copies, as every caller checks.
- StageExecutor.ExecuteAnalysis: the path for interrupts (BaseException) that cancels and re-raises is not modelled.
- FailurePolicy.WaitInOrder: a wait fails or succeeds; exceptions of other kinds, which cancel nothing, are not modelled.
- ProducerLabels.SourcesWithheldUnlessCountDiffers: stated for the two supported run types, the only ones that can have independent labels.
- SubsetSearch.UnlimitedSearchDecides: the meaning is that each value goes to at most one bucket; with at least one bucket this is the same as placing all of them (EveryValueCanBePlaced), with none the code answers True.
- SHA-256 is a faithful tag, best-effort S3 removals succeed, and sizes and contents of files are numbers.
- Outpoint indexes are integers where the source keeps them as strings; amounts are integer satoshis.
- The index lock, the six synchronization jobs and packing are modelled on values, as states and steps, instead of classes: what matters about them is the interleaving of many processes and a crash between effects. Aliasing and in-memory fields of `Worker` are not captured.
- MainnetSyncRuns.SynchronizationFinishesExactlyWhen: Core's chainstate and blocks directories are one part, which a rename moves as a whole, and so is the archive's state; a first synchronization creates them in steps. That storage expires file by file and that operators delete the dataset are not steps.
- MainnetSyncRuns.RestoreFinishesExactlyWhen: the checks on the restored files, of the inventory (for which see WorkingCopy.RestoreEndsComplete) and of the resume bytes, are not modelled, nor is a restored file that does not match its checksum. They can make a restore fail, which the model allows at any point; what it says is that nothing else does.
- MainnetSyncRuns.SynchronizationSucceeds: current-ready.json, those checks and the ones on network, image and source directory are not modelled, in the same sense.

Not modelled:

- Containers, qsub, s5cmd, tar, zstd, Bitcoin Core and HTTP calls: only their effect on an abstract store, clock or job set, with failure as a possible outcome.
- The bitcoin-block-archive program, which is not in the repository: uploads, sidecars and pruning are steps with the checks the pipeline relies on.
- BlockSci detection, notebooks, Markdown reports, the command line and configuration rules.
- Rates, precision and recall: the counts they are computed from are modelled.
- The denomination list, `descending_window`, `owner_summary` and the fin evaluation, whose facts each follow from one body.
- Persistent index updates, scratch copies and notebook copies of the index beyond the operations of the index store they call.
