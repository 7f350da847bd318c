# Verification model of the resQ shard merger

This project models the tools that turn the reports of a distributed resQ run
into one verdict, and proves what makes that verdict evidence: the strict shard
merger with its coverage, context, benchmark, snapshot and lifecycle parts, the
independent checkers its output must satisfy, and the smaller tools around it
(identity migration, relational loading, the self-coverage trend, the dashboard
layout, the formatter scanner and the differential harness).

`dafny verify dfyconfig.toml` checks everything. There is one module per file.

- **Foundations.** `Orders` (total orders, the sorted enumeration of a set),
  `Seqs` (comprehensions, sums, permutations), `Text` (code-point order, decimal
  and JSON text, slash-joined keys), `Grouping` (insertion-ordered groups).
- **Benchmarks.** `Holm` proves that the step-down loop is closed testing with
  Bonferroni local tests; `Benchmarks` proves what that means for the verdicts
  of a merge.
- **Coverage.** `Records` is the recursive keyed merge and its algebra;
  `Flattening` shows that merging commutes with flattening; `CoverageContract`
  is the independent checker, `CoverageValidation` the checker as it runs;
  `Recompute` rebuilds the aggregates, `CoverageCounts` says what they count;
  `CoverageSummary`, `CoverageFile`, `CoverageShape`, `CoverageFreshness`,
  `CoverageLines`, `CoverageOrigins`, `CoverageMerge` and `CoverageArtifact`
  prove, as conditions on the shards, when the checker accepts what the merger
  produces; `CoverageExamples` builds accepted shards whose merge is rejected.
  `Contexts`, `ContextContract` and `ContextValidation` do the same for per-test
  attribution; `CoverageReferences` joins both into one theorem about the whole
  artifact, `ReferenceValidation` is the checker for it.
- **Exact cover.** `Shards` (topology), `Inventory`, `ShardResults` and
  `ExactCover`.
- **Lifecycle.** `Lifecycle` builds the event stream; `LifecycleShape` proves it
  balanced, `LifecycleCount` counts it, `DiagnosticIds` follows the identity
  queues, `StreamExistence` says when a stream exists, `RunSummary` adds up the
  status tallies, `LifecycleContents` says what the closing events report;
  `EventCheck` is the contract of the checker, `EventValidation` the checker as it
  runs and `EventAccept` its acceptance of every stream from sound rows;
  `EventExamples` shows a rejected one.
- **Snapshots.** `Snapshots` joins the inventories, `SnapshotContents` says what
  the result reports, `SnapshotLaws` proves the join laws and what a passing gate
  is evidence of.
- **Migration.** `Migration` proves the mapping a bijection, `StateMigration`
  the rewriting of state documents along it.
- **Relational loading.** `Tables`, `TableContents`, `Loading`, `KeyIntegrity`,
  `TableLoading`.
- **Small tools.** `Trend`, `Layout`, `Scanner`, `Verdicts`.

Python exceptions are `Result`/`Option` values. Metadata that the tools only
compare through canonical JSON is carried as text; the canonical text of record
keys is modelled and proved injective. Hashes are parameters. p-values are
exact reals, hit counts natural numbers, timestamps integers.

Procedures are written as the tools run them and proved against specification
functions; what those functions mean is proved on the fields of the data
(`CoverageCounts`, `LifecycleContents`, `SnapshotContents`, `TableContents`, and
the lemmas whose names end in `Mean` or `Means`).

## Where the code does less than its checkers ask

These properties are false of the code as it stands. Each has a concrete input
and the exact condition, on that input, under which it holds.

- **Embedded branch aggregates.** Only file-level branches are refreshed
  (`tools/merge_shards.py:475-477`), while the checker also checks the copies
  embedded in functions (`tools/coverage_contract.py:311-314`). Acceptance needs,
  for every branch, that no later shard took an edge that the first shard listing
  it missed (`CoverageMerge.MergedFilesAccepted`; counterexample
  `CoverageExamples.LaterEdgeIsLost`: two checked one-file shards).
- **Shared lines.** Functions may share a line. The checker compares the file's
  line with the function listed last (`tools/coverage_contract.py:454-461`), and
  the merge sorts the functions. Acceptance needs, for every line, that the last
  function of the canonical order that lists it saw all the hits of the line
  (`CoverageMerge.MergedFilesAccepted`; always so when every line belongs to one
  function, `CoverageMerge.OneOwnerPerLine`; counterexample
  `CoverageExamples.SharedLineIsRejected`).
- **Vacuous completeness.** The completeness flags are plain equality
  (`tools/merge_shards.py:522`), the checker also wants the mode on and
  something to measure. The merged summary passes if and only if the shards list,
  for each kind of site, an eligible one that is uninstrumented or measured, keep
  instrumented functions within the eligible ones without vacuous equality, and
  the first shard declares no reason "none" that some function has
  (`CoverageArtifact.MergedArtifactAccepted`). With both modes on, non-empty
  eligible sets and only eligible functions instrumented it always holds
  (`CoverageArtifact.MeasuredArtifactAccepted`; counterexample
  `CoverageExamples.VacuousCompletenessIsRejected`).
- **Stored contexts.** The merger counts every context, the checker only
  attributed ones. A merge of checked measurements passes if and only if every
  shard's contexts are tests or attempts, none books metrics under the identity
  "unattributed", and distinct contexts and metrics together stay within the
  limits (`ContextContract.MergedMeasurementAccepted`; counterexample
  `ContextContract.UnattributedContextIsRejected`).
- **Cover and manifests.** Manifests are compared by digest, not entry by entry.
  The merged results equal the union of all manifests exactly when every
  shardable execution is listed by the shard it is assigned to
  (`ExactCover.CoversInventory`, `MergedReportComplete`; counterexample
  `ExactCover.UnknownToItsOwner`).
- **Snapshot roots.** The last copy of a root wins. The merged roots are the same
  for every order of the shards if and only if shards that keep a root under one
  key keep the same root (`SnapshotLaws.RootsIgnoreOrder`; everything else is
  independent of the order anyway, `SnapshotLaws.EntriesIgnoreOrder`;
  counterexample `SnapshotLaws.RootOrderMatters`).
- **Hidden links.** For the same reason a passing gate may hide a symbolic link.
  It proves that no shard kept one if and only if shards that keep a root under
  one key agree on whether it is a link (`SnapshotLaws.PassedGateIsClean`;
  counterexample `SnapshotLaws.ReplacedLinkGoesUnseen`).
- **Snapshot groups.** A merged inventory stands for its shards except that its
  gate keeps what the group alone missed: the gate of a merge in groups passes if
  and only if the direct one and the group's own do
  (`SnapshotLaws.GroupingIgnored`; counterexample
  `SnapshotLaws.GroupGateRemembers`).
- **Function keys.** A validated report loads if and only if no function of one
  file reads, path and name together, like a function on the same line number of
  another file; over all paths that is guaranteed exactly for sets of names in
  which no name ends in a slash and another name
  (`TableLoading.LoadsExactlyWhen`, `KeyIntegrity.FunctionKeysSafe`;
  counterexample `TableLoading.SlashedNameIsRefused`).

## Model

| member | source | states |
|---|---|---|
| Holm.HolmAdjust | tools/merge_shards.py:294-301 | for non-negative p-values the loop returns, per hypothesis, the smaller of 1 and the maximum of size times least p-value over every family that contains it |
| Holm.SortIndices | tools/merge_shards.py:295 | some permutation that sorts the p-values; nothing else depends on how ties are arranged |
| Holm.RejectionIsClosedTesting | tools/merge_shards.py:294-301 | an adjusted value is at most alpha exactly when Bonferroni rejects every family containing the hypothesis |
| Holm.AdjustedBounds | tools/merge_shards.py:299-300 | raw value <= adjusted value <= min(1, n times raw value) for p in [0,1] |
| Holm.LargerFamilyAdjustsMore | tools/merge_shards.py:294-301 | embedding a family in a larger one never lowers an adjusted value |
| Holm.PermutationEquivariant | tools/merge_shards.py:294-301 | permuting the input permutes the output, so the sort's treatment of ties cannot be seen |
| Holm.AdjustmentKeepsOrder | tools/merge_shards.py:294-301 | adjusted values follow the order of the raw ones and ties stay ties |
| Benchmarks.MergePerformance | tools/merge_shards.py:278-291 | accepts exactly identities that are present and unique over all shards; the rows are kept and sorted by identity |
| Benchmarks.ReclassifyAll | tools/merge_shards.py:334-345 | the in-place loop rewrites exactly the comparable records, from Holm's values over the whole family |
| Benchmarks.VerdictsMean | tools/merge_shards.py:337-345 | a comparable benchmark regressed exactly when its adjusted p-value is at most alpha and its change is positive and at least the practical effect, improved exactly when the change is not positive and that large in absolute value; nothing else changes |
| Benchmarks.MergeBenchmarkAnalysis | tools/merge_shards.py:304-384 | acceptance, the reclassified comparisons, every count over them, the comparisons written back into performance and result rows, and the gate as a condition on baseline and verdicts, with one reason for each defect |
| Benchmarks.WriteBack | tools/merge_shards.py:346-349 | every row whose identity has a comparison carries it afterwards, the others are unchanged |
| Benchmarks.RowsCarryAnalysis | tools/merge_shards.py:346-357 | the merged performance rows carry exactly the comparisons that the analysis lists, in their order |
| Benchmarks.ReclassifiedIsValid | tools/validate_report.py:216-221 | a reclassified comparison is inconclusive exactly when not comparable and still meets the validator's p-value rule |
| Benchmarks.MergedCountsAddUp | tools/merge_shards.py:357-369 | improved + stable + regressed = comparable and inconclusive = total - comparable |
| Benchmarks.LargerFamilyCreatesNoVerdict | tools/merge_shards.py:331-345 | a regressed or improved verdict in the larger family was already one in the smaller, at the same alpha |
| Benchmarks.MergedVerdictsAreShardVerdicts | tools/merge_shards.py:331-369 | every regressed or improved benchmark of the merge was so in the shard that measured it |
| Benchmarks.EqualEvidenceEqualVerdict | tools/merge_shards.py:335-345 | equal records get equal verdicts wherever they stand |
| Records.MergeRecords | tools/merge_shards.py:410-436 | accepts exactly consistent records, recursively, and returns their merge |
| Records.GroupByKey | tools/merge_shards.py:414-416 | the group table holds, per key, the records with that key in order |
| Records.MergeItems | tools/merge_shards.py:417-435 | one group is accepted exactly when its metadata agrees and its children merge, and yields the group's merge |
| Records.CanonicalInjective | tools/merge_shards.py:30-34 | equal canonical texts of record keys mean equal keys |
| Records.KeysMean | tools/merge_shards.py:410-416 | two records of one type are merged exactly when path, name and line, line number or identifier agree |
| Text.FirstDifferenceDecides | tools/merge_shards.py:418 | strings are ordered by their first different character, a prefix first |
| Text.DecimalMeans | tools/merge_shards.py:775 | a numeral stands for its number, without leading zeros |
| Text.EscapeMeans | tools/merge_shards.py:30-34 | reading an escaped character of a canonical text gives the character back, and printable characters are not escaped |
| Records.MergedKeys | tools/merge_shards.py:418-436 | the output has exactly the distinct input keys, once each and sorted by canonical text |
| Records.MergeAbsorbs | tools/merge_shards.py:410-436 | merging an earlier merge with further records is merging all records at once |
| Records.ConsistencyAbsorbs | tools/merge_shards.py:422-426 | a later merge rejects exactly what one merge would have rejected |
| Records.MergeConservesHits | tools/merge_shards.py:427-434 | at every path of the tree hits and presence are unchanged by the merge |
| Records.MergedHitsAreShardSums | tools/merge_shards.py:427-434 | a merged counter is the sum of the shards' counters and is hit exactly when some shard hit it |
| Records.MergeIgnoresOrder | tools/merge_shards.py:410-436 | any reordering of the records is accepted alike and gives the same tree up to inherited fields |
| Flattening.FlattenCommutes | tools/merge_shards.py:410-451 | when every child has one owner, merging parents and listing their children equals listing all children and merging those, key by key |
| Flattening.MergedViewsAgree | tools/coverage_contract.py:454-461 | the equality of file-level rows and function children survives the merge of a file's copies |
| Recompute.RecomputeCoverage | tools/merge_shards.py:458-524 | whatever the files were, the summary totals added up file by file are what the checker recounts from all rebuilt rows |
| Recompute.UpdateFile | tools/merge_shards.py:459-489 | every aggregate written into a file is the count of its rows |
| Recompute.ShownCount | tools/merge_shards.py:490-510 | a total that every file shows correctly adds up to the count over all rows |
| CoverageCounts.FunctionCountsMean | tools/merge_shards.py:460-474 | every aggregate of a rebuilt function, on the fields of its rows: hit rows, eligible and instrumented sites, eligible sites that were hit, edges of eligible branches and those taken |
| CoverageCounts.BranchCountsMean | tools/merge_shards.py:475-477 | the aggregates of a refreshed branch count its edges, if it is eligible, and its taken edges |
| CoverageCounts.FileCountsMean | tools/merge_shards.py:478-489 | every aggregate of a rebuilt file, on the fields of the rows it lists |
| CoverageCounts.SummaryCountsMean | tools/merge_shards.py:490-510 | every total of the summary, on the fields of all rows: loaded files, files with lines, eligible sites that were hit, and the others |
| CoverageSummary.TotalsAgree | tools/coverage_contract.py:488-512 | every recomputed summary total is what the checker recounts from the files |
| CoverageSummary.BranchesAreTwicePerSite | tools/coverage_contract.py:311-314 | branchesFound = 2 * branchSitesEligible |
| CoverageSummary.BoundsAgree | tools/coverage_contract.py:83-131 | all bounds of the checker hold except that instrumented statement functions are eligible, which is exactly what remains to be checked |
| CoverageSummary.FallbacksAgree | tools/merge_shards.py:523-524 | fallback counts agree with the recount exactly when an inherited "none" counts no function |
| CoverageSummary.OwnSummaryAccepted | tools/coverage_contract.py:83-131 | recounted totals with the checker's own flags pass, whenever instrumented functions stay within the eligible ones |
| CoverageValidation.ValidateBranch | tools/coverage_contract.py:261-315 | the checker's branch check accepts exactly two labelled, distinct edges and aggregates that agree with them |
| CoverageValidation.ValidateFunction | tools/coverage_contract.py:359-432 | the loops over one function accept exactly what the contract asks of a function |
| CoverageValidation.ValidateFile | tools/coverage_contract.py:318-480 | and over one file, its two views and its counts |
| CoverageValidation.CheckTotals | tools/coverage_contract.py:488-512 | the recount of the summary accepts exactly totals that agree with the files |
| CoverageValidation.ValidateSummary | tools/coverage_contract.py:83-131 | bounds, completeness flags and known reasons |
| CoverageValidation.CheckFallbacks | tools/coverage_contract.py:513-520 | the tally of fallback reasons accepts exactly counts that agree with the functions |
| CoverageValidation.ValidateArtifact | tools/coverage_contract.py:318-520 | the whole procedure accepts exactly the files and summaries that the acceptance theorems speak of |
| CoverageFile.BranchRecomputed | tools/merge_shards.py:475-477 | refreshing a branch makes it pass, and changes it exactly when its aggregates were stale |
| CoverageFile.FunctionRecomputed | tools/coverage_contract.py:415-432 | a rebuilt function passes the checker's recount exactly when its branch copies do |
| CoverageFile.FileRecomputed | tools/coverage_contract.py:454-478 | a rebuilt file passes exactly when every embedded branch copy carried the right edge aggregates and its lines match those of its functions |
| CoverageShape.MergedFile | tools/coverage_contract.py:339-432 | merging checked copies of a file yields a file of the checked shape, function by function and row by row |
| CoverageShape.MergedBranch | tools/coverage_contract.py:261-315 | copies of one branch with the same edges merge to a well-shaped branch |
| CoverageFreshness.MergedEdgesHit | tools/merge_shards.py:427-434 | the merged hit edges are exactly the union of the copies' hit edges |
| CoverageFreshness.FreshAfterMerge | tools/merge_shards.py:420-434 | inherited edge aggregates stay right exactly when the first copy hit every edge that any copy hit |
| CoverageLines.MergedLinesMatch | tools/coverage_contract.py:454-461 | the lines of a merged file match those of its merged functions if and only if, for every line, the last function listing it saw all the hits of the line |
| CoverageLines.OwnedLinesAgree | tools/coverage_contract.py:454-461 | which is so whenever every line belongs to one function |
| CoverageMerge.MergedFileGood | tools/merge_shards.py:591-595 | a merged file has the checked shape, and its sites and branches are those of its functions |
| CoverageMerge.MergedSitesDistinct | tools/coverage_contract.py:484-487 | site identities stay distinct over all merged files |
| CoverageMerge.MergedEdgesDistinct | tools/coverage_contract.py:484-487 | edge identities stay distinct over all merged branches |
| CoverageMerge.OneOwnerPerLine | tools/coverage_contract.py:454-461 | lines that belong to one function, consistently across checked shards, agree |
| CoverageMerge.MergedFilesAccepted | tools/coverage_contract.py:318-487 | merged and recomputed files of checked, coherent shards pass the checker if and only if, at every path, no later shard took an edge its first copy missed and every line was seen in full by the last function listing it |
| CoverageOrigins.ChildKept | tools/merge_shards.py:410-451 | every function, site and branch of a shard's file has a counterpart with its metadata in the rebuilt file of that path |
| CoverageOrigins.ChildOrigin | tools/merge_shards.py:410-451 | and everything a rebuilt file lists was listed by some shard's file of that path |
| CoverageArtifact.FlagsOfShards | tools/merge_shards.py:517-522 | when the equality flags mean what the checker wants, read off the shards' sites and functions |
| CoverageArtifact.MergedSummaryAccepted | tools/coverage_contract.py:83-131 | the recomputed summary passes if and only if the shards meet the summary condition |
| CoverageReferences.MetricOrigin | tools/merge_shards.py:535-569 | every merged context metric carries the metadata of some shard's metric |
| ReferenceValidation.CheckReferences | tools/coverage_contract.py:521-532 | the catalogs of files, functions, sites and edges accept exactly metrics that resolve |
| ReferenceValidation.ValidateWholeArtifact | tools/coverage_contract.py:318-532 | the checker run as a whole accepts exactly the artifacts of the theorem below |
| CoverageReferences.ReferenceKept | tools/coverage_contract.py:522-532 | a file, function, site or edge reference that resolves in the shards' files resolves in the merged and recomputed ones |
| CoverageReferences.MergedReferencesResolve | tools/coverage_contract.py:520-532 | if every shard's metrics resolve in its own files, every merged metric resolves in the merged files |
| CoverageReferences.WholeArtifactAccepted | tools/coverage_contract.py:318-532 | files, summary, attribution and references of an artifact merged from accepted, coherent shard artifacts pass the checker together if and only if the shards' files pass path by path, meet the summary condition, and their contexts are storable |
| CoverageArtifact.MergedArtifactAccepted | tools/coverage_contract.py:318-519 | files and summary of checked, coherent shards pass together if and only if the files pass path by path and the shards meet the summary condition |
| CoverageArtifact.MeasuredArtifactAccepted | tools/coverage_contract.py:462-519 | with both modes on, non-empty eligible sets and only eligible functions instrumented, acceptance is decided path by path |
| CoverageArtifact.VacuousFlagIsRejected | tools/merge_shards.py:522 | a shard whose own summary passes is rejected after a merge of itself alone, whenever a completeness flag would hold vacuously |
| CoverageExamples.OneBranchShards | tools/merge_shards.py:475-477 | one-file shards with one branch pass, are merged, and the result passes exactly when the first shard took all the edges |
| CoverageExamples.LaterEdgeIsLost | tools/merge_shards.py:475-477 | counterexample: two checked shards whose accepted merge carries a stale edge count |
| CoverageExamples.VacuousCompletenessIsRejected | tools/merge_shards.py:522 | counterexample: a shard without statement sites passes with its own summary, its merge does not |
| CoverageExamples.SharedLineIsRejected | tools/coverage_contract.py:454-461 | counterexample: a shard with two functions on one line passes, its merge does not |
| Contexts.MergeContexts | tools/merge_shards.py:535-569 | the incremental merge accepts and yields what one batch merge of all metrics per context would, with rows sorted by identity |
| Contexts.OneMoreContext | tools/merge_shards.py:541-554 | one dictionary update is one step of the batch merge |
| Contexts.RejectedContext | tools/merge_shards.py:546-549 | a rejected context stays rejected whatever follows |
| ContextContract.AttributionConserved | tools/merge_shards.py:542-556 | any additive total over the merged contexts is the total over all contexts of all shards |
| ContextContract.TotalsConserved | tools/merge_shards.py:559-564 | function, statement and branch hit totals, overflow activations and dropped metric hits are each the sum of the shards' own |
| ContextContract.TotalsMean | tools/merge_shards.py:556-565 | what each counter of the merge counts: stored rows and metrics, hits by kind of metric, truncated when some shard was |
| ContextContract.UnattributedConserved | tools/merge_shards.py:562 | unattributed hits are those of all the shards' metrics |
| ContextContract.LossCounters | tools/merge_shards.py:563-565 | truncated is set exactly when overflow or dropped counters are positive |
| ContextContract.UnattributedIdentity | tools/merge_shards.py:562 | hits booked on the identity "unattributed" vanish exactly when no such context has metrics |
| ContextContract.RowEntries | tools/merge_shards.py:542-558 | the merged rows store exactly the (context, metric) pairs of the shards |
| ContextContract.EntryCount | tools/merge_shards.py:557-558 | and each of them once |
| ContextContract.MergedMeasurementAccepted | tools/coverage_contract.py:550-666 | a merge of checked measurements passes the checker if and only if every shard's contexts are attributed and all of them together stay within the storage limits |
| ContextValidation.ValidateMeasurement | tools/coverage_contract.py:550-666 | the checker run context by context and metric by metric accepts exactly the measurements of that theorem |
| ContextContract.UnattributedContextIsRejected | tools/merge_shards.py:558 | counterexample: a checked measurement with an unattributed context whose merge is rejected |
| Shards.Topology | tools/merge_shards.py:146-157 | accepts exactly equal settings with one shard for every index |
| Shards.PermutationFromTopology | tools/merge_shards.py:154-156 | n distinct indices below n are a permutation of range(n) |
| Shards.TopologyFromPermutation | tools/merge_shards.py:154-156 | and a permutation of range(n) is one shard per index |
| Inventory.CheckManifest | tools/merge_shards.py:184-219 | one manifest is accepted exactly when it is sound alone and describes shared executions like those before it |
| Inventory.ValidateInventory | tools/merge_shards.py:177-226 | accepts exactly sound manifests that describe one inventory; returns it in its order, and every shard's expected identities |
| Inventory.InventoryInOrder | tools/merge_shards.py:217-226 | the inventory is ordered by file, then suite, then line with missing lines first, then description, then identity |
| Inventory.SharedEntriesAgree | tools/merge_shards.py:195-198 | entries of one identity agree in every field but the selection |
| Inventory.OneInventory | tools/merge_shards.py:217-226 | the ordered inventory depends only on the set of described executions |
| ShardResults.CheckResults | tools/merge_shards.py:235-263 | one shard is accepted exactly when it reports its selection once each and repeats earlier results only as equal run-level copies |
| ShardResults.ValidateResults | tools/merge_shards.py:229-264 | accepts exactly when every shard does; returns the first copy of every result |
| ShardResults.FirstRowsIds | tools/merge_shards.py:233-264 | keeping first copies loses no identity |
| ShardResults.FirstRowsDistinct | tools/merge_shards.py:233-264 | and repeats none |
| ExactCover.MergeRows | tools/merge_shards.py:829-853 | the merge of inventory and rows succeeds exactly for mergeable reports and returns the rows in inventory order |
| ExactCover.SharedResultsAgree | tools/merge_shards.py:246-253 | in accepted reports two results of one identity, from whatever shards, carry equal evidence, test and case |
| ExactCover.ContradictionRefused | tools/merge_shards.py:246-253 | reports that differ in any of these are refused |
| ExactCover.InOrderKeepsRows | tools/merge_shards.py:852-853 | sorting by inventory position keeps every row |
| ExactCover.IdsInOrder | tools/merge_shards.py:852-853 | the sorted identities are the inventory's identities that have a result |
| ExactCover.RowsAreListed | tools/merge_shards.py:852-853 | the position lookup never fails |
| ExactCover.ReportedByOwner | tools/merge_shards.py:206-219 | a result is in its shard's own manifest, and a shardable one is assigned to that shard |
| ExactCover.SharedResultIsRunLevel | tools/merge_shards.py:243-245 | results shared by two shards are run-level, so the rejection is unreachable for shardable executions |
| ExactCover.ExactlyOneReporter | tools/merge_shards.py:177-264 | the owner reports a shardable execution if and only if its manifest lists it, and no other shard does |
| ExactCover.EveryResultMerged | tools/merge_shards.py:246-264 | every result has one merged row: itself, or for run-level executions a copy with equal evidence |
| ExactCover.CoversInventory | tools/merge_shards.py:177-264 | merged identities lie in the inventory, and equal it if and only if owners list their executions |
| ExactCover.MergedReportComplete | tools/validate_report.py:735-778 | the completion check accepts the merged report if and only if its rows are the union of all manifests |
| ExactCover.ValidateCompletion | tools/validate_report.py:735-778 | the completion check accepts exactly what that theorem speaks of |
| ExactCover.UnknownToItsOwner | tools/merge_shards.py:177-264 | counterexample: all shard checks pass and an execution is missing |
| ExactCover.AcceptanceIgnoresOrder | tools/merge_shards.py:146-264 | acceptance does not depend on the order in which reports are supplied |
| ExactCover.OrderLeavesNoTrace | tools/merge_shards.py:217-226 | nor does the inventory or the order of the merged identities |
| Grouping.GroupBy | tools/merge_shards.py:736-738 | the dictionary loop yields first-appearance keys and, per key, the rows in order |
| Grouping.RegroupedPermutes | tools/merge_shards.py:736-750 | regrouping only reorders |
| Lifecycle.Recorder.Emit | tools/merge_shards.py:713-718 | appends the event with the next sequence number |
| Lifecycle.Recorder.RecordDiagnostics | tools/merge_shards.py:798-800 | appends the diagnostics of a test under claimed identities, or refuses |
| Lifecycle.Recorder.RecordAttempts | tools/merge_shards.py:766-781 | appends a bracketed pair per attempt, or for one implied attempt |
| Lifecycle.Recorder.RecordCases | tools/merge_shards.py:782-791 | appends a bracketed pair per parameter case, or refuses a case without identity |
| Lifecycle.Recorder.RecordSuites | tools/merge_shards.py:747-810 | appends the suites of a file in first-appearance order |
| Lifecycle.Recorder.RecordFiles | tools/merge_shards.py:736-811 | appends the files of a report in first-appearance order |
| Lifecycle.BuildEvents | tools/merge_shards.py:683-822 | succeeds exactly when the event word exists and returns it numbered from 1 |
| LifecycleContents.StreamSays | tools/merge_shards.py:674-680 | in a built stream every suite.finished and file.finished event counts the rows of its suite or file whose status is pass, fail, error, and skip or pending; every benchmark.finished event has a row's benchmark as entity and its evidence as payload |
| LifecycleContents.StreamShows | tools/merge_shards.py:804-811 | and every row's suite, file and benchmark have such an event |
| StreamExistence.BuiltExactlyWhen | tools/merge_shards.py:683-822 | the word exists if and only if cases have identities, suites are in the inventory and, when required, the shards' diagnostic identities suffice |
| LifecycleShape.Balanced | tools/merge_shards.py:683-822 | a stack machine over run, file, suite, test, attempt and case brackets accepts every stream and ends empty |
| LifecycleCount.StreamLength | tools/verify_report_scale.py:346-355 | the exact number of events from files, suites, rows, attempts, cases, benchmarks and diagnostics |
| LifecycleCount.EveryRowOnce | tools/merge_shards.py:736-811 | every identity is started and finished as often as it has rows |
| DiagnosticIds.IdentitiesUsedInOrder | tools/merge_shards.py:690-702 | per parent and diagnostic the shards' identities are used from the front, in order, each at most once |
| DiagnosticIds.EvidenceSuffices | tools/merge_shards.py:693-702 | identities supplied = identities needed by the rows + identities left over |
| RunSummary.TalliesAddUp | tools/merge_shards.py:674-680 | the tallies of a file's suites add up to the file's, status by status |
| RunSummary.CountsAddUpExactlyWhen | tools/validate_report.py:937-940 | the counts add up to the number of tests if and only if every status is a known one |
| RunSummary.OrderIgnored | tools/merge_shards.py:674-680 | a tally does not depend on the order of the rows |
| EventCheck.IntervalsNest | tools/merge_shards.py:703-712 | run, file, suite and test intervals are nested and forward, with gaps filled from outside |
| EventAccept.StreamInTime | tools/validate_report.py:832-837 | every event lies inside the run |
| EventAccept.StreamOrigin | tools/validate_report.py:838-843 | every test, attempt and case event is about one of the rows, at its observed time |
| EventAccept.StreamComplete | tools/validate_report.py:843-874 | both ends of every row's test, attempts and cases are in the stream |
| EventValidation.ValidateEvents | tools/validate_report.py:781-874 | the checker with its table of last events accepts exactly the streams that the acceptance theorems speak of |
| EventAccept.AttemptIdInjective | tools/merge_shards.py:775 | an attempt identity determines its test and its number |
| EventAccept.StreamAccepted | tools/validate_report.py:781-874 | the checker accepts every stream built from rows that pass the row checks, lie inside the run and whose shared case identities were observed at the same times |
| EventAccept.AcceptedExactlyWhen | tools/validate_report.py:866-874 | for rows whose shared cases are observed alike, a stream is accepted if and only if cases that share an identity were observed at the same times |
| EventExamples.SharedCaseIsRejected | tools/validate_report.py:866-874 | counterexample: two sound rows with one case identity at two times |
| Snapshots.MergeSnapshots | tools/merge_shards.py:954-1034 | the loops over shards, roots and entries compute the specified inventory |
| SnapshotContents.EntryMeans | tools/merge_shards.py:961-980 | a merged entry has a flag when some shard's entry of that backend and path has it, lists what some copy lists, and has the status its flags ask for |
| SnapshotContents.InventoryInOrder | tools/merge_shards.py:974 | entries and roots are ordered by backend, then path, each once |
| SnapshotContents.CountsMean | tools/merge_shards.py:981-996 | referenced, missing, obsolete, stored and declared count the merged entries with that status or flag; unsafe counts unsafe entries and linked roots |
| SnapshotContents.ReasonsMean | tools/merge_shards.py:997-1024 | which reason appears when: those the shards name, and for an enabled gate one each for incompleteness, missing, obsolete and unsafe snapshots; "incomplete-member" only when nothing else is named |
| SnapshotLaws.JoinedAt | tools/merge_shards.py:958-973 | every key of any shard has one entry whose flags and identity sets are the disjunction and union over all copies |
| SnapshotLaws.RootsIgnoreOrder | tools/merge_shards.py:959-960 | the merged roots are the same for every order of the shards if and only if shards that keep a root under one key keep the same root |
| SnapshotLaws.EntriesIgnoreOrder | tools/merge_shards.py:954-1034 | entries, completeness and the counts of entries do not depend on shard order, whatever the roots |
| SnapshotLaws.OrderIgnored | tools/merge_shards.py:954-1034 | under that agreement nothing in the merged inventory depends on shard order, gate included |
| SnapshotLaws.RootOrderMatters | tools/merge_shards.py:959-960 | counterexample when they do not |
| SnapshotLaws.GroupingIgnored | tools/merge_shards.py:954-1034 | a merged inventory can stand for its shards in entries, roots, counts and completeness; the gate of the grouped merge passes exactly when the direct one and the group's own pass |
| SnapshotLaws.ObsoleteMeansUnused | tools/merge_shards.py:975-980 | an entry is obsolete exactly when no shard references or declares it |
| SnapshotLaws.CountsAddUp | tools/merge_shards.py:981-996 | referenced + missing + obsolete = number of entries, and unverified paths add up over shards |
| SnapshotLaws.GatePasses | tools/merge_shards.py:997-1034 | when the merged gate passes |
| SnapshotLaws.PassedGateIsClean | tools/merge_shards.py:997-1034 | an enabled gate passes only if every shard is complete, every entry referenced, stored and safe, and no merged root a symbolic link; no shard kept one either if and only if shards agree on which shared roots are links |
| SnapshotLaws.ReplacedLinkGoesUnseen | tools/merge_shards.py:959-960 | counterexample: an auditing shard's link is replaced by a gated shard's plain copy, and the merged gate passes |
| SnapshotLaws.GroupGateRemembers | tools/merge_shards.py:1007-1034 | counterexample: sound shards whose direct merge passes the gate while their merge in groups does not |
| SnapshotLaws.ShardGatesDecide | tools/merge_shards.py:997-1034 | when every shard's gate is enabled and sound, the merged gate passes if and only if every shard's own gate does |
| Migration.Indexed | tools/migrate_identity_state.py:64-81 | accepts exactly entries whose key determines a non-empty identity, and returns the index |
| Migration.PairIndex | tools/migrate_identity_state.py:110-123 | one pairing loop, for any order of the keys: the recorded pairs, or two images of one identity |
| Migration.Reverse | tools/migrate_identity_state.py:124-134 | succeeds exactly for an injection and returns its inverse |
| Migration.PairMaps | tools/migrate_identity_state.py:84-135 | accepts exactly when the reports prove a bijection of identities; returns it with its exact inverse |
| Migration.PairingMeans | tools/migrate_identity_state.py:53-61 | identities are paired by equal file, suite and description, as executions by equal kind, parameters and tags too |
| Migration.PairableMeans | tools/migrate_identity_state.py:84-134 | reports can be paired if and only if both list the same executions under consistent, non-empty names that stand for each other one to one |
| StateMigration.TotalInjection | tools/migrate_identity_state.py:110-134 | the mapping is defined on all old identities, reaches all new ones and is injective |
| StateMigration.WayBack | tools/migrate_identity_state.py:84-135 | the reports prove the way back as well, and it is the inverse |
| StateMigration.EntryOrderIgnored | tools/migrate_identity_state.py:84-135 | reordered reports are accepted exactly when the original ones are, and prove the same mapping |
| StateMigration.RewriteIds | tools/migrate_identity_state.py:152-159 | rewrites a list of identities exactly when all are mapped |
| StateMigration.RewriteRows | tools/migrate_identity_state.py:160-175 | rewrites rows in place exactly when all are mapped, changing nothing else |
| StateMigration.RewriteProposals | tools/migrate_identity_state.py:176-190 | the same for proposals and their suggested entries |
| StateMigration.MigrateState | tools/migrate_identity_state.py:147-196 | succeeds for a recognised document exactly when all its identities are mapped |
| StateMigration.ReferencesMapped | tools/migrate_identity_state.py:147-196 | every identity is replaced by its image, in order |
| StateMigration.DistinctnessKept | tools/migrate_identity_state.py:124-134 | distinct identities stay distinct |
| StateMigration.RoundTrip | tools/migrate_identity_state.py:147-196 | migrating back with the inverse restores the document up to its header |
| StateMigration.WayBackAccepted | tools/migrate_identity_state.py:138-144 | and the way back is accepted |
| Tables.TableContract | tools/resq_to_tables.py:24-304 | the loops fill the twelve specified tables, refused only when coverage names another run |
| TableContents.TestRowsMean | tools/resq_to_tables.py:66-116 | the tests and attempts tables hold exactly one kind of row per test and per attempt, keys spelled out |
| TableContents.EvidenceRowsMean | tools/resq_to_tables.py:118-151 | the benchmarks table holds exactly a row per non-empty benchmark identity, the diagnostics table one per diagnostic, numbered from zero |
| TableContents.FileRowsMean | tools/resq_to_tables.py:160-186 | the coverage run and file tables hold exactly a row for the run and one per file |
| TableContents.FunctionRowsMean | tools/resq_to_tables.py:187-204 | the function table holds exactly a row per function, which refers to its file |
| TableContents.SiteRowsMean | tools/resq_to_tables.py:205-245 | the site and edge tables hold exactly a row per site, linked to the first function of its name, and per edge |
| TableContents.ContextRowsMean | tools/resq_to_tables.py:247-281 | the context and metric tables hold exactly a row per context and per metric |
| Tables.FunctionTable | tools/resq_to_tables.py:187-204 | the name lookup holds the key of the first function of each name |
| Tables.SiteTables | tools/resq_to_tables.py:205-245 | one row per site and one per edge, with the keys they refer to |
| Loading.Database.LoadPayload | tools/ingestion_contract.py:533-554 | loads all rows exactly when they are loadable, keeps referential integrity, and otherwise leaves the database unchanged |
| Loading.InsertAllLoads | tools/ingestion_contract.py:533-554 | inserting one by one succeeds exactly for rows with new keys and earlier parents |
| Loading.ReferencesHold | tools/ingestion_contract.py:55-164 | in every sound database each of the eleven foreign keys resolves |
| KeyIntegrity.FunctionKeysSafe | tools/resq_to_tables.py:191 | string-built function keys are injective over all paths if and only if no name ends in a slash and another name |
| KeyIntegrity.FunctionsUnique | tools/resq_to_tables.py:188-204 | a validated artifact has distinct function keys if and only if no function of one file reads, path and name together, like one on the same line number of another |
| KeyIntegrity.SuffixFreeReadsApart | tools/resq_to_tables.py:191 | suffix-free names read apart, whatever the paths |
| KeyIntegrity.SitesUnique | tools/resq_to_tables.py:205-231 | site keys are distinct |
| KeyIntegrity.EdgesUnique | tools/resq_to_tables.py:232-245 | edge keys are distinct |
| KeyIntegrity.AttemptsUnique | tools/resq_to_tables.py:101-116 | attempt keys are distinct |
| TableLoading.ParentsFirst | tools/ingestion_contract.py:55-164 | every table is listed after the table it refers to |
| TableLoading.PayloadRefers | tools/ingestion_contract.py:55-164 | every row refers to a row of the same payload |
| TableLoading.ReferencesInOrder | tools/ingestion_contract.py:538-554 | references are satisfied at every prefix of the insertion |
| TableLoading.LoadsExactlyWhen | tools/ingestion_contract.py:533-554 | a validated report of a new run loads if and only if its functions read apart: paths, names and line numbers decide |
| TableLoading.SlashFreeNamesLoad | tools/resq_to_tables.py:66-303 | in particular whenever function names contain no slash |
| TableLoading.SlashedNameIsRefused | tools/resq_to_tables.py:191 | counterexample: a validated report that no database can load |
| TableLoading.LoadReport | tools/ingestion_contract.py:533-554 | one load keeps every key traceable to a loaded run |
| TableLoading.LoadReports | tools/ingestion_contract.py:533-554 | any sequence of reports with distinct runs and safe names loads completely |
| Trend.AppendPoint | tools/self_coverage_trend.py:58-91 | refuses exactly bad sources, limits and documents; otherwise returns a valid document with the point in its place, cut to the limit |
| Trend.ValidateTrend | tools/self_coverage_trend.py:31-55 | accepts exactly documents with valid points whose timestamps are unique and sorted |
| Trend.TrendFile.Update | tools/self_coverage_trend.py:94-101 | the stored points are always the newest of everything ever written, and a refused source changes nothing |
| Trend.HistoryIsLastWriteWins | tools/self_coverage_trend.py:79-81 | the unbounded history is in time order and holds exactly the last write of every timestamp |
| Trend.AppendedIsRecord | tools/self_coverage_trend.py:79-81 | filter, append and sort put the point in its place |
| Trend.CutCommutes | tools/self_coverage_trend.py:79-90 | cutting before an append loses nothing that cutting after it keeps |
| Trend.StoredIsNewestHistory | tools/self_coverage_trend.py:58-91 | after any run of appends under one limit the stored points are the newest of the last-write-wins history |
| Layout.Dashboard.Section | tools/render_ingestion_assets.py:199-205 | places a full-width header below everything before it and keeps the layout sound |
| Layout.Dashboard.Place | tools/render_ingestion_assets.py:207-216 | places a panel at the cursor or at the start of the next row and keeps the layout sound |
| Layout.Render | tools/render_ingestion_assets.py:193-216 | any sequence of sections and panels is laid out on the grid without overlaps, headers below everything before them |
| Scanner.CodeEnd | tools/verify_formatter_boundaries.py:41-60 | the code of a line ends at the first slash outside a string at line start or after a blank |
| Scanner.CodeLines | tools/verify_formatter_boundaries.py:24-61 | one line per line: empty in block comments, otherwise the prefix before the first comment |
| Scanner.StripMeans | tools/verify_formatter_boundaries.py:29 | stripping a line removes the blanks at both ends and no other character |
| Scanner.LiteralKept | tools/verify_formatter_boundaries.py:41-52 | nothing inside a string literal, escapes included, starts a comment |
| Scanner.OccursMeans | tools/verify_formatter_boundaries.py:68-74 | a token occurs at a column exactly when the line is some text of that length, the token, and some text |
| Scanner.FindAll | tools/verify_formatter_boundaries.py:68-74 | the jumping search finds every occurrence of a token that does not overlap itself |
| Scanner.TokensDoNotOverlap | tools/verify_formatter_boundaries.py:12 | the forbidden tokens do not overlap themselves |
| Scanner.ScanText | tools/verify_formatter_boundaries.py:64-75 | every token occurrence in the surviving code is reported once, at its position, and nothing else |
| Verdicts.FreeName | tools/verify_qspec_differential.py:128-133 | the suffix loop ends for every result map, at the first free name |
| Verdicts.MapVerdicts | tools/verify_qspec_differential.py:108-134 | every case has an entry of its own with its status, even when names already end in numbers |
| Verdicts.Compare | tools/verify_qspec_differential.py:137-153 | returns, sorted, what differs without being listed and what is listed without differing, a test missing from a map having the status "absent" |
| Verdicts.ReportOrder | tools/verify_qspec_differential.py:147-152 | reports are in the order of test, then upstream, then other status |
| Verdicts.SilenceIsAgreement | tools/verify_qspec_differential.py:137-153 | both lists are empty exactly when the listed differences are the real ones, absent tests included |

## Left out

- Holm.HolmAdjust: floating-point rounding is not modelled; p-values are exact reals.
- Lifecycle.BuildEvents: timestamps are integers, so the comparison of differently written time strings is not captured; payloads are carried as text except the fields the checker reads.
- EventAccept.AcceptedExactlyWhen: a case identity that one row observed and another did not is outside it; the outcome then depends on which row comes last and on the interval that fills the gap.
- Records.MergeRecords: records are values, so aliasing between a merged record and its source is not captured; the key order of dictionaries inside one record is not either.
- Recompute.RecomputeCoverage: percentages are left out; each follows from two modelled counts.
- CoverageMerge.MergedFilesAccepted: shards in which a site is listed by two functions or two files, or in which copies of a branch have different edges, are not covered; site identities encode the source location, so such shards do not describe one program.
- CoverageReferences.WholeArtifactAccepted: the source-parse diagnostics, the gates of the report's coverage section and the comparison with a separate report are not part of it.
- CoverageValidation.ValidateArtifact: type checks, percentages and the format of site and edge identities are left out, and so are the fallback reasons of single sites.
- ContextValidation.ValidateMeasurement: type checks, edge labels and the format of site identities are left out.
- EventValidation.ValidateEvents: type checks and the older schema version of events are left out.
- Snapshots.MergeSnapshots: timestamps and schema constants of the inventory are left out.
- Inventory.ValidateInventory: files and their digests (`validate_sources`) and the settings compared before it (versions, ordering, labels, configuration) are left out; each is one comparison.
- ExactCover.MergeRows: snapshot ownership and the diagnostics of the run are left out.
- Migration.PairMaps: the checks of the reports' algorithm and codec envelopes, and non-object entries, are left out.
- StateMigration.MigrateState: ill-typed documents (a field that should be a list or an object) are left out.
- Tables.TableContract: columns outside keys and references are left out, and so is the projection to the older table version.
- Loading.Database.LoadPayload: null checks of single columns and the database engine itself are left out; a transaction is all or nothing by assumption of the model's rollback.
- Trend.AppendPoint: the description of the measurement basis is left out.
- Scanner.ScanText: splitting text into lines is left out; the input is the list of lines.
- Verdicts.MapVerdicts: reading verdicts out of XML is left out.
- LCOV output, durations, labels and the pass/fail exit of the merger: no hard property.
- MD5 framing, UUIDs, SQL text, Grafana JSON, the q runtime and process control.
