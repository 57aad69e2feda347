# Verified core of the robot-learning control plane

A Dafny model of the self-contained logic of the control plane and its training engines, with proofs
of what that logic is for. `dafny verify dfyconfig.toml` covers the whole project.

| area | modules |
|---|---|
| workflow engine (`shared/mlops-workflow.ts`) | `JsonText`, `CanonicalParameters`, `CanonicalLaws`, `CanonicalOrder`, `WorkflowSpecs`, `WorkflowGraph`, `WorkflowRuns`, `WorkflowValidation`, `WorkflowCompletion` |
| temporal ensembling (`engines/act/train_act.py`) | `TemporalEnsemble` |
| LeRobot conversion (`engines/lerobot-converter/lerobot_convert.py`) | `TrajectoryRows`, `TrajectoryLaws`, `TrajectoryOrder`, `LeRobotTasks`, `LeRobotTables`, `LeRobotSorting`, `LeRobotImport`, `LeRobotImportedFile`, `LeRobotRuns`, `LeRobotRoundTrip` |
| sim-real statistics (`shared/sim-real-correlation.ts`) | `Ranks`, `Correlation`, `Regression`, `SimRealSummary` |
| release gate (`shared/artifact-quality-gate.ts`, `engines/dm-control-adapter/adapter.py`) | `Wilson`, `ReleaseGate` |
| reward vocabulary (`engines/reward_vocabulary.py`) | `RewardVocabulary`, `RewardRuns`, `RewardEpisodes`, `RewardSums`, `RewardVector`, `LegacyReward` |
| diffusion policy (`engines/diffusion-policy/train_dp.py`) | `DiffusionSchedule`, `DiffusionSampler`, `DiffusionMarginal` |
| rollouts (`engines/microduck-recurrent/train_recurrent.py` and two GAE twins) | `RecurrentRollout`, `Gae` |
| log parser and phase machine (`engines/microduck-rl-adapter/adapter.py`, `engines/microduck-football/task_machine.py`) | `StreamParser`, `StreamPoints`, `FootballTask` |
| shared vocabulary | `Outcomes`, `RealFacts`, `RealVectors` |

How things are represented:

- Numbers of the engines are exact reals. `exp` of an age is any positive weight, `sqrt` is any
  function with `sqrt(x) >= 0` and `sqrt(x)² = x` on non-negative numbers, and the networks (denoiser,
  recurrent cell, decoder) are arbitrary functions of one row of the batch.
- A thrown exception is an error value (`Result`, `Option`, a `raised` flag); `None` inputs, missing
  keys and malformed rows take the source's own branches.
- Objects whose methods update their fields are classes with those fields (`Canonicalizer`, `Search`,
  `IncrementalEnsembler`, `RewardTracker`, `VectorRewardTracker`, `TrajectoryDataset`, `FrameHistory`,
  `Generator`, `Parser`, `FootballTaskMachine`); loops are loops with invariants, proved against
  functions of the input or of the old state.
- JSON strings are sequences of UTF-16 code units and JSON numbers their shortest decimal text, so the
  printed text is the one of section 7 of RFC 8259 with the escapes of `JSON.stringify`; `-0` prints as
  `0` and is identified with it.
- JavaScript objects live in a heap of dense arrays and records, so sharing and cycles are real.
- A parquet table is a set of columns and a sequence of rows; float32 is an arbitrary rounding function
  that may overflow.

What the code does where that is not what its comments say:

- `expandLegacyRewardMap` says that a sign contradicting a term's meaning is rejected rather than
  reinterpreted, and that the default slew reproduces the historical one-shot goal payment. The signs
  of `progress` and `goal` are both dropped, and a success step pays a tenth of the goal.
  `LegacyReward.ExpansionMatchesHistory` gives the exact condition under which a step is paid alike,
  `LegacyReward.SuccessDiffers` three maps for which it is not, and `LegacyReward.GoalOverEpisode` when
  an episode pays the goal once: it is positive and the episode ends with at least ten success steps,
  since a miss takes back what was released (`LegacyReward.MissTakesBack`). The engine ends an episode on
  its first success (`engines/starter-ppo/runner.py:839-847`).
- The comment of `summarizeSimRealCorrelation` says that pairs with a zero real value are excluded; they
  are counted by reason but stay in `pairCount` and in the coefficients, so the reasons add up to
  `excludedPairCount` exactly when there is no such pair (`SimRealSummary.Summarize`,
  `SimRealSummary.ZeroRealIsNotExcluded`).
- An import can write a file that the trajectory loader refuses: a declared frame rate between 0 and 1
  is truncated to 0, a NaN stands in a `frame_index` column that replaces missing timestamps, or a task
  name holds U+0085, U+2028 or U+2029, at which the header is cut when it is read back.
  `LeRobotImportedFile.ImportedFileLoads` gives the exact condition on the dataset and
  `LeRobotImportedFile.FractionalRateIsUnreadable`, `LeRobotImportedFile.NanFrameIsUnreadable` and
  `LeRobotImportedFile.SeparatorIsUnreadable` an input for each. The same characters in the task name of
  an export make it unreadable for the import (`LeRobotRoundTrip.SeparatedTaskIsUnreadable`).
- The chunked recomputation of the recurrent trainer is exact only for chunks without a `done` before
  their last row; any earlier `done` can make it differ (`RecurrentRollout.StaleStateDiverges`).
- The `KICK` phase of the football machine is never entered: the kick fires on the transition from
  `ALIGN` to `RECOVER` (`FootballTask.KickPhaseIsDead`).
- The release gate promises that a hand-edited report cannot pass silently, but it compares an interval
  with the counts only when `episodes` is given. With `episodes`, `ReleaseGate.PassedBoundsAreReal` is
  the guarantee; without, the observed rates play no part (`ReleaseGate.RatesIgnoredWithoutEpisodes`,
  and `ReleaseGate.UnsupportedIsReleasable` for the extreme case).

## Model

| member | source | states |
|---|---|---|
| JsonText.QuoteReads | shared/mlops-workflow.ts:162 | reading back a quoted string gives the string, for every escape and lone surrogate |
| JsonText.ParseRender | shared/mlops-workflow.ts:160-184 | the parser undoes the printer on every tree, whatever text follows |
| JsonText.RenderInjective | shared/mlops-workflow.ts:157-186 | the printed text is uniquely decodable: two trees with the same text are the same tree |
| JsonText.QuoteIsShortest | shared/mlops-workflow.ts:162 | of all JSON texts of a string without surrogates the quotation is a shortest one, so every character that has a short escape uses it and no other is escaped |
| JsonText.QuoteIsWellFormed | shared/mlops-workflow.ts:162 | every quotation is well-formed UTF-16 without control characters: lone surrogates are escaped, pairs are not, and hexadecimal digits are lower case |
| CanonicalParameters.SortAscends | shared/mlops-workflow.ts:176 | sorting the keys gives an ascending permutation of them |
| CanonicalParameters.AscendingUnique | shared/mlops-workflow.ts:176 | two ascending orders of the same keys are the same order |
| CanonicalParameters.Canonicalizer.Visit | shared/mlops-workflow.ts:159-185 | the recursive walk with its mutable `seen` set returns the text or the failure of the path-based expansion, and restores `seen` on return |
| CanonicalParameters.Canonicalizer.VisitItems | shared/mlops-workflow.ts:173 | the pieces of an array, or the first failure, with `seen` restored |
| CanonicalParameters.Canonicalizer.VisitFields | shared/mlops-workflow.ts:180 | the pieces of a record in key order, or the first failure, with `seen` restored |
| CanonicalLaws.ExpandedWalks | shared/mlops-workflow.ts:170-182 | if a value is accepted, no walk from it meets a cycle, a forbidden key or a value JSON cannot hold |
| CanonicalLaws.RefusedWalk | shared/mlops-workflow.ts:163-179 | if an object is refused, some walk from it shows why |
| CanonicalLaws.AcceptedExactly | shared/mlops-workflow.ts:158-186 | acceptance is exactly: no object is its own ancestor, no forbidden key, only JSON values; shared references are fine |
| CanonicalLaws.Canonicalize | shared/mlops-workflow.ts:158-186 | the entry point succeeds exactly on the acceptable values |
| CanonicalLaws.SameTreeSameReading | shared/mlops-workflow.ts:175-180 | values that expand to the same tree read the same along every path |
| CanonicalLaws.SameReadingSameTree | shared/mlops-workflow.ts:175-180 | values that read the same along every path expand to the same tree |
| CanonicalLaws.SameTextSameValue | shared/mlops-workflow.ts:157-158 | two accepted values print the same text exactly when they are equal up to key order and sharing, so the text can serve as a key |
| CanonicalLaws.PrintedTextParses | shared/mlops-workflow.ts:158-186 | the text of an accepted value parses back to its tree with nothing left over |
| CanonicalOrder.PrintedInOrder | shared/mlops-workflow.ts:176 | in every record of the parsed text, at any depth, an earlier key is a proper prefix of a later one or has the smaller code unit where they first differ |
| WorkflowSpecs.ByKeyUnique | shared/mlops-workflow.ts:203 | with unique keys the lookup map holds every step under its own key |
| WorkflowGraph.Search.Visit | shared/mlops-workflow.ts:204-215 | one depth-first visit finishes its key and keeps the visited order topological, or leaves a path that explains the refusal |
| WorkflowGraph.EnsureAcyclic | shared/mlops-workflow.ts:202-217 | accepts exactly when every dependency exists and there is no cycle, names the right one of the two otherwise, and the order of `visited` is topological and complete |
| WorkflowGraph.TopologicalIsSound | shared/mlops-workflow.ts:202-217 | a topological order of all keys rules out cycles and missing dependencies |
| WorkflowGraph.ExplanationRefutes | shared/mlops-workflow.ts:208-210 | the path left by a refusal is a real cycle or a real dangling dependency |
| WorkflowRuns.TransitionDecreases | shared/mlops-workflow.ts:95-104 | every call that changes a validated step, running to running included, decreases a natural-number measure |
| WorkflowRuns.HistoryBounded | shared/mlops-workflow.ts:296-306 | a history of changes is bounded by the measure it starts with, and `attempt` grows by the transitions into running |
| WorkflowRuns.FreshStepIsFinite | shared/mlops-workflow.ts:95-104 | a freshly built step changes at most 3·maxAttempts + 2 times and `attempt` counts its starts |
| WorkflowRuns.BoundIsReached | shared/mlops-workflow.ts:95-104 | that bound is attained, so it is the best one |
| WorkflowRuns.BusyRunIsFinite | shared/mlops-workflow.ts:296-306 | a whole workflow changes at most as often as the sum of its steps' measures |
| WorkflowRuns.ListedExactly | shared/mlops-workflow.ts:308-318 | a waiting step is listed exactly when all its dependencies have succeeded |
| WorkflowRuns.NothingListedMeansBlocked | shared/mlops-workflow.ts:308-318 | when nothing is listed, every waiting step depends, through waiting steps, on one that is running or did not succeed |
| WorkflowRuns.EmptyListMeansDone | shared/mlops-workflow.ts:308-318 | no deadlock: among pending, ready and succeeded steps the list is empty exactly when all succeeded |
| WorkflowRuns.RunStaysSchedulable | shared/mlops-workflow.ts:289-318 | a run from a schedulable workflow stays schedulable: advances change neither keys nor dependencies |
| WorkflowRuns.RunKeepsDependenciesFirst | shared/mlops-workflow.ts:289-318 | every run keeps: whatever has left the waiting states had its dependencies succeed |
| WorkflowRuns.SucceededStays | shared/mlops-workflow.ts:95-104 | success is never undone in a run |
| WorkflowRuns.NothingStartsEarly | shared/mlops-workflow.ts:289-318 | in every run that only advances listed steps, a running or finished step's dependencies have succeeded and stay so |
| WorkflowCompletion.ListedPlainly | shared/mlops-workflow.ts:308-318 | a step is listed exactly when it is pending or ready and every step it depends on has succeeded |
| WorkflowCompletion.AcceptedFrom | shared/mlops-workflow.ts:95-104 | a call is accepted exactly when it repeats the state or comes from one of its predecessors, and counts an attempt exactly when it starts the step |
| WorkflowCompletion.FinalExactly | shared/mlops-workflow.ts:95-104 | succeeded, cancelled and skipped are exactly the states no call changes |
| WorkflowCompletion.SuccessExactly | shared/mlops-workflow.ts:296-306 | a step can be brought to success within its attempts exactly when it has succeeded, runs, or waits or failed with an attempt left |
| WorkflowCompletion.CompletableExactly | shared/mlops-workflow.ts:289-318 | a schedulable workflow has a run to success of every step exactly when each step can still succeed |
| WorkflowValidation.TrimIdempotent | shared/mlops-workflow.ts:110-114 | trimming removes all outer white space and does nothing the second time |
| WorkflowValidation.ValidateParameterSnapshot | shared/mlops-workflow.ts:188-200 | accepts exactly the snapshots whose trees are records of acceptable values |
| WorkflowValidation.ValidateSteps | shared/mlops-workflow.ts:232-246 | the loop over steps accepts exactly well-formed steps with distinct trimmed keys |
| WorkflowValidation.ValidateWorkflowSpec | shared/mlops-workflow.ts:219-253 | accepts exactly the valid specifications, graph conditions included |
| WorkflowValidation.ValidIsSchedulable | shared/mlops-workflow.ts:219-253 | validation gives the scheduler's guarantees what they need |
| WorkflowValidation.ReadyWorkflowSteps | shared/mlops-workflow.ts:308-318 | validates first, then lists the ready keys |
| WorkflowValidation.BuildPlan | shared/mlops-workflow.ts:275-287 | the built plan is refused only for its header, and is a valid specification |
| WorkflowValidation.PlanIsOk | shared/mlops-workflow.ts:255-286 | the plan's steps pass validation with and without a deploy step |
| WorkflowValidation.PlannedRunIsFinite | shared/mlops-workflow.ts:275-306 | a planned workflow is over after at most 31 changes, 36 with deploy |
| WorkflowCompletion.PlanRunsInOrder | shared/mlops-workflow.ts:255-286 | in every run of a plan, whatever has started or finished comes after the success of every earlier step of the plan |
| WorkflowCompletion.PlanCompletes | shared/mlops-workflow.ts:275-318 | every plan that is handed out can be run to the success of all its steps |
| TemporalEnsemble.EnsemblePredictions | engines/act/train_act.py:769-789 | every row is the normalised weighted blend of the chunks that cover it |
| TemporalEnsemble.BlendIsConvex | engines/act/train_act.py:785-788 | the shares are positive and sum to one |
| TemporalEnsemble.BlendWithin | engines/act/train_act.py:785-788 | a blend stays within any bounds that hold of the blended actions |
| TemporalEnsemble.NewEnsembler | engines/act/train_act.py:808-816 | refuses exactly a chunk size that is not positive |
| TemporalEnsemble.IncrementalEnsembler.Push | engines/act/train_act.py:818-827 | refuses a wrong shape, otherwise appends and drops the oldest beyond k entries |
| TemporalEnsemble.IncrementalEnsembler.Step | engines/act/train_act.py:829-845 | raises or returns the blend of the live entries, drops the expired ones and advances the clock only on success |
| TemporalEnsemble.FullRateKeepsLast | engines/act/train_act.py:818-834 | pushing before every step keeps exactly the last k chunks |
| TemporalEnsemble.FullRateIsReference | engines/act/train_act.py:792-845 | the ring buffer pushed before every step gives the stateless reference row for row, for every length, chunk size and weighting |
| TemporalEnsemble.AnyScheduleIsSafe | engines/act/train_act.py:818-845 | for every sequence of calls the ring never exceeds k and `step` raises exactly when no push lies in the last k steps |
| TemporalEnsemble.AnyScheduleStaysWithin | engines/act/train_act.py:829-845 | for every sequence of calls an output stays within the bounds of the pushed in-horizon actions |
| TemporalEnsemble.OpenLoopHoldsLatest | engines/act/train_act.py:800-845 | pushing every k steps leaves the latest chunk alone in the horizon |
| TemporalEnsemble.OpenLoopReplays | engines/act/train_act.py:800-845 | pushing every k steps replays each chunk open loop, action by action |
| TemporalEnsemble.WindowIsLastRow | engines/act/train_act.py:707-729 | on every window of a batch the exported graph, with its weights computed from the ages alone, equals the reference's last row on that window's k-step history |
| TrajectoryRows.LoadTrajectoryDataset | engines/lerobot-converter/lerobot_convert.py:347-394 | the loops over files, lines and samples on the mutable dataset compute the load, or its first error |
| TrajectoryRows.TrajectoryDataset.AppendStep | engines/lerobot-converter/lerobot_convert.py:175-198 | buffers the step, fixes or enforces reward presence, counts it, and closes the episode on done |
| TrajectoryRows.TrajectoryDataset.Close | engines/lerobot-converter/lerobot_convert.py:200-204 | closes an open episode and does nothing otherwise |
| TrajectoryRows.TrajectoryDataset.ConsumeStep | engines/lerobot-converter/lerobot_convert.py:263-320 | one step row: accepted with its new state, or refused with its error |
| TrajectoryRows.TrajectoryDataset.ConsumeRecord | engines/lerobot-converter/lerobot_convert.py:323-344 | routes header, event and step rows and refuses others |
| TrajectoryRows.TrajectoryDataset.ConsumeLine | engines/lerobot-converter/lerobot_convert.py:364-387 | one line: blank, broken, plain row or telemetry envelope |
| TrajectoryLaws.LoadedIsWellFormed | engines/lerobot-converter/lerobot_convert.py:347-394 | every accepted input gives non-empty episodes with one width and one reward presence, and counts each step once |
| TrajectoryLaws.EnvelopesAreRows | engines/lerobot-converter/lerobot_convert.py:372-387 | telemetry envelopes load exactly as the rows of their samples |
| TrajectoryOrder.DecodedExactly | engines/lerobot-converter/lerobot_convert.py:263-320 | a step row decodes to a step exactly when each part of the step stands under its key, the observation under its first and the time under the first of its three names |
| TrajectoryOrder.LoadsExactly | engines/lerobot-converter/lerobot_convert.py:347-394 | a load accepts exactly files of readable lines and good rows whose steps share one width and reward presence, and at least one step |
| TrajectoryOrder.LoadedInOrder | engines/lerobot-converter/lerobot_convert.py:347-394 | the episodes joined are the decoded step rows in file, line and sample order; an episode ends exactly at a row with `done` or at the last step row of its file; the rates are the declared ones, each once |
| LeRobotTables.ResolveFps | engines/lerobot-converter/lerobot_convert.py:397-421 | a resolved rate is at least 1: the requested one exactly when it is positive, else the single declared one exactly when it is whole, else 50 |
| LeRobotTasks.QuotedFree | engines/lerobot-converter/lerobot_convert.py:629-634 | a quoted string stays on its line exactly when it has none of U+0085, U+2028 and U+2029, which `json.dumps` leaves as they are and `str.splitlines` breaks at |
| LeRobotTasks.ReadTasks | engines/lerobot-converter/lerobot_convert.py:769-822 | task names by index from tasks.jsonl or tasks.parquet, or the refusal of an unreadable line or row |
| LeRobotTasks.LastRowNames | engines/lerobot-converter/lerobot_convert.py:802-826 | of several rows with one index the last one names it |
| LeRobotTasks.RowsAreRead | engines/lerobot-converter/lerobot_convert.py:802-826 | a task table is read exactly when every name is a string, and every index comes from one of its rows |
| LeRobotTasks.KeyedLinesAreRows | engines/lerobot-converter/lerobot_convert.py:780-826 | a tasks.jsonl that gives every index reads as the tasks.parquet of the same rows |
| LeRobotTasks.BareLinesAreNumbered | engines/lerobot-converter/lerobot_convert.py:785-795 | lines that give no index are numbered from zero in their order |
| LeRobotTasks.EscapedIsQuoted | engines/lerobot-converter/lerobot_convert.py:629-634 | on characters of the basic plane the Python writer quotes as `JSON.stringify` does, so the text reads back as the name |
| LeRobotTasks.AscendingRises | engines/lerobot-converter/lerobot_convert.py:1227 | the names of the note stand in strictly rising order of their indices |
| LeRobotTasks.NoteLine | engines/lerobot-converter/lerobot_convert.py:1225-1245 | the header with its note stays on one line exactly when every task name does, and can be written exactly when every name can |
| LeRobotTables.WriteDataset | engines/lerobot-converter/lerobot_convert.py:645-678 | the running frame offset numbers each episode from the total length of those before it; a task name that breaks its line leaves tasks.jsonl and episodes.jsonl unreadable, and one that UTF-8 cannot hold fails the export |
| LeRobotTables.RunExport | engines/lerobot-converter/lerobot_convert.py:681-727 | writes the dataset the load, the rate and the task name determine, or reports why not |
| LeRobotTables.IndexCountsFrames | engines/lerobot-converter/lerobot_convert.py:587-589 | the global index column is a bijection onto 0..total_frames-1 |
| LeRobotTables.RowOfStep | engines/lerobot-converter/lerobot_convert.py:553-593 | every step has its row at episode offset plus frame index |
| LeRobotTables.SortedIsUnique | engines/lerobot-converter/lerobot_convert.py:905-906 | rows with index 0..n-1 have one ascending order |
| LeRobotTables.ConcatPermutes | engines/lerobot-converter/lerobot_convert.py:900-904 | another shard order only permutes the rows |
| LeRobotTables.ShardOrderIsIrrelevant | engines/lerobot-converter/lerobot_convert.py:889-907 | whatever order the shards are read in, and whatever the sort does with ties, the loaded table is the episodes in order |
| LeRobotSorting.SortsExist | engines/lerobot-converter/lerobot_convert.py:905-906 | an insertion sort by the index column is a sort in the sense the round trip asks for |
| LeRobotImport.RunsOfAreRuns | engines/lerobot-converter/lerobot_convert.py:1132-1141 | the grouping loop's groups are exactly the maximal runs of the episode index, and their row numbers are consecutive |
| LeRobotImport.GroupRows | engines/lerobot-converter/lerobot_convert.py:1129-1141 | groups the rows, or refuses an episode index that is not an integer |
| LeRobotImport.CrossChecksExactly | engines/lerobot-converter/lerobot_convert.py:1142-1166 | the cross-checks pass exactly when there are rows, every declared episode count is the number of runs of the episode index, and every recorded length is the length of its run |
| LeRobotImport.RowTimes | engines/lerobot-converter/lerobot_convert.py:1200-1205 | the time of a row is its timestamp, else its frame index over the rate, else its position in the episode over the rate |
| LeRobotImport.BuildSteps | engines/lerobot-converter/lerobot_convert.py:1188-1225 | the nested loops write the rows in order, with `done` exactly at the end of each run, or stop at the first bad row |
| LeRobotImport.RunImport | engines/lerobot-converter/lerobot_convert.py:1033-1255 | the whole tabular import: gates, task names, grouping, cross-checks, steps, header and note |
| LeRobotImport.ImportsExactly | engines/lerobot-converter/lerobot_convert.py:1033-1255 | an import succeeds exactly when the dataset opens, its episode indices are integers that cross-check, every row decodes, and the note can be encoded |
| LeRobotImportedFile.ImportedFileLoads | engines/lerobot-converter/lerobot_convert.py:1033-1255 | for every foreign dataset an import accepts, the loader reads the file back with one episode for each run, exactly when no task name breaks the header's line, the declared rate is at least 1 and fits a double, and no time is taken from a frame index that is not finite |
| LeRobotImportedFile.FractionalRateIsUnreadable | engines/lerobot-converter/lerobot_convert.py:1058-1061 | a declared rate of one half is accepted by the import and its file is refused by the loader |
| LeRobotImportedFile.NanFrameIsUnreadable | engines/lerobot-converter/lerobot_convert.py:1202-1205 | a NaN frame index is accepted by the import and its file is refused by the loader |
| LeRobotImportedFile.SeparatorIsUnreadable | engines/lerobot-converter/lerobot_convert.py:1225-1254 | a task name with a line separator is accepted by the import and its file is refused by the loader |
| LeRobotRuns.GroupsAreEpisodes | engines/lerobot-converter/lerobot_convert.py:1129-1141 | a table that numbers its episodes is cut into exactly those episodes |
| LeRobotRuns.WholeSplit | engines/lerobot-converter/lerobot_convert.py:1188-1225 | loading the rows of such a table rebuilds the episodes |
| LeRobotRoundTrip.RowDecodes | engines/lerobot-converter/lerobot_convert.py:917-934 | decoding an exported row gives the rounded step, or refuses exactly when a value overflowed |
| LeRobotRoundTrip.ExportPassesChecks | engines/lerobot-converter/lerobot_convert.py:1142-1163 | the totals and lengths of an export pass the import's cross-checks |
| LeRobotRoundTrip.DatasetRoundTrip | engines/lerobot-converter/lerobot_convert.py:553-593 | import and load of an export give the same episodes, dimensions and reward presence, with t replaced by frame/fps and values rounded; a task name that breaks its line stops the import, a value that overflows is refused as not finite, and a rate beyond the doubles is refused by the loader |
| LeRobotRoundTrip.RoundTrip | engines/lerobot-converter/lerobot_convert.py:681-727 | the round trip, with its three exact failures, for every input, resolved rate and task name an export accepts, and every shard order |
| LeRobotRoundTrip.SeparatedTaskIsUnreadable | engines/lerobot-converter/lerobot_convert.py:769-782 | an export under a task name with a line separator is refused by the import |
| Ranks.RankByCounts | shared/sim-real-correlation.ts:82-100 | a rank is the number of smaller values plus half of the equal ones plus one half |
| Ranks.GroupRank | shared/sim-real-correlation.ts:87-98 | the group from start to end of a sorted list has that rank, by the formula in the loop |
| Ranks.ShareSumPermutes | shared/sim-real-correlation.ts:84-85 | a rank does not depend on the order of the values |
| Ranks.RanksFollowValues | shared/sim-real-correlation.ts:83-100 | ranks are permutation-equivariant |
| Ranks.RanksKeepOrder | shared/sim-real-correlation.ts:83-100 | ranks are ordered exactly as the values are |
| Ranks.RanksSumToTriangle | shared/sim-real-correlation.ts:83-100 | ranks sum to n(n+1)/2 |
| Ranks.RanksSurviveIncreasingMap | shared/sim-real-correlation.ts:83-100 | a strictly increasing map changes no rank |
| Ranks.SortByValue | shared/sim-real-correlation.ts:84-85 | the order holds every entry once, ascending by value |
| Ranks.RanksFromOrder | shared/sim-real-correlation.ts:86-99 | the nested loops fill every slot with its rank, whatever order the sort leaves ties in |
| Ranks.AverageRanks | shared/sim-real-correlation.ts:83-100 | every index gets its tie-averaged rank |
| Correlation.CauchySchwarz | shared/sim-real-correlation.ts:68-77 | covariance squared is at most the product of the variances, about any centres |
| Correlation.PearsonBounded | shared/sim-real-correlation.ts:63-80 | a returned coefficient lies in [-1, 1] |
| Correlation.PearsonNullExactly | shared/sim-real-correlation.ts:65-78 | null exactly for fewer than two points, unequal lengths or a constant channel |
| Correlation.SpearmanNullExactly | shared/sim-real-correlation.ts:102-106 | the rank correlation is null on exactly the same inputs |
| Correlation.PearsonSymmetric | shared/sim-real-correlation.ts:63-80 | swapping the channels changes nothing |
| Correlation.PearsonAffineInvariant | shared/sim-real-correlation.ts:63-80 | a positive affine map of a channel changes nothing |
| Regression.CoefficientOfLine | shared/sim-real-correlation.ts:63-80 | the best line through the means leaves the share 1 - r² of the spread, no other slope leaves less, and the coefficient has the sign of its slope |
| Correlation.SpearmanMonotoneInvariant | shared/sim-real-correlation.ts:102-106 | a strictly increasing map of either channel changes nothing |
| Correlation.Accumulate | shared/sim-real-correlation.ts:68-77 | the accumulation loop computes the three centred sums |
| Correlation.PearsonCorrelation | shared/sim-real-correlation.ts:63-80 | the method computes the coefficient the laws are about |
| Correlation.SpearmanCorrelation | shared/sim-real-correlation.ts:102-106 | the coefficient of the average ranks |
| SimRealSummary.Summarize | shared/sim-real-correlation.ts:119-194 | pairs are split and counted exactly, the reasons add up to the excluded pairs exactly when no counted pair has a zero real value, coefficients are withheld below the floor, and the spread describes the relative errors |
| SimRealSummary.ErrorsAreRelative | shared/sim-real-correlation.ts:138-145 | every counted pair with a real value other than zero has, in order, its error in parts of the real magnitude, positive when the simulation overshoots |
| SimRealSummary.ZeroRealIsNotExcluded | shared/sim-real-correlation.ts:137-145 | one pair with a zero real value is counted by reason, stays among the pairs and is not excluded |
| SimRealSummary.Median | shared/sim-real-correlation.ts:108-112 | the middle of the ascending permutation of the values |
| SimRealSummary.MiddleSplits | shared/sim-real-correlation.ts:108-112 | half of the values lie at or below the median and half at or above |
| SimRealSummary.SpreadSplits | shared/sim-real-correlation.ts:170-182 | rms² is mean² plus variance |
| SimRealSummary.ZeroVarianceExactly | shared/sim-real-correlation.ts:147-165 | either coefficient is withheld as zero-variance exactly when there are enough pairs and a channel does not vary |
| Wilson.IntervalInvertsTest | shared/artifact-quality-gate.ts:417-421 | x lies in the interval exactly when the score test at n does not reject it |
| Wilson.IntervalHoldsRate | shared/artifact-quality-gate.ts:417-421 | 0 ≤ low ≤ p ≤ high ≤ 1 |
| Wilson.IntervalMirrors | shared/artifact-quality-gate.ts:417-421 | low of s successes is 1 - high of n - s |
| Wilson.LowMonotone | shared/artifact-quality-gate.ts:417-421 | the lower bound grows with the successes |
| Wilson.HighMonotone | shared/artifact-quality-gate.ts:417-421 | the upper bound grows with the successes |
| Wilson.BoundsInvertTest | shared/artifact-quality-gate.ts:400-422 | bounds that are returned invert the test at the looked-up z |
| Wilson.ConfidenceWidens | shared/artifact-quality-gate.ts:393-425 | a larger confidence never narrows the interval |
| Wilson.ClampsAreIdle | engines/dm-control-adapter/adapter.py:752-761 | the Python copy's clamps do nothing on whole counts |
| ReleaseGate.CheckInterval | shared/artifact-quality-gate.ts:514-543 | no error exactly when the interval is present and agrees with the counts where they are given |
| ReleaseGate.CheckThresholds | shared/artifact-quality-gate.ts:544-567 | no error exactly when the judged rates meet the declared thresholds |
| ReleaseGate.CheckAblation | shared/artifact-quality-gate.ts:586-612 | no error exactly when the trained rate beats the baseline as declared |
| ReleaseGate.ValidateForRelease | shared/artifact-quality-gate.ts:438-622 | passes exactly the reports that satisfy every criterion |
| ReleaseGate.BetterReportPasses | shared/artifact-quality-gate.ts:438-622 | a released report stays released when its measured rates, bounds and smoothness improve and its baseline is no stronger |
| ReleaseGate.PointVerdict | shared/artifact-quality-gate.ts:544-612 | on the point gate a released report stays released under other rates exactly when they meet both thresholds and exceed the baseline by the declared delta |
| ReleaseGate.IntervalChecksExactly | shared/artifact-quality-gate.ts:514-543 | with counts the interval checks pass exactly when both reported bounds are within 0.01 of the Wilson bounds of the rounded counts |
| ReleaseGate.RoundedCount | shared/artifact-quality-gate.ts:522-523 | the rounded count lies in 0..n within one half of the rate times n |
| ReleaseGate.FloorFromAgreement | shared/artifact-quality-gate.ts:519-531 | a reported low that agrees and clears a threshold puts the true floor within 0.01 of it |
| ReleaseGate.CeilingFromAgreement | shared/artifact-quality-gate.ts:532-541 | the same for the collision ceiling |
| ReleaseGate.PassedBoundsAreReal | shared/artifact-quality-gate.ts:514-567 | with `episodes` given, a passed ciLowerBound gate guarantees the true Wilson floor and ceiling of the rounded counts within 0.01 of the declared thresholds |
| ReleaseGate.RatesIgnoredWithoutEpisodes | shared/artifact-quality-gate.ts:514-567 | without `episodes` the interval answers to the thresholds alone: any two observed rates get the same verdict, up to the baseline comparison |
| ReleaseGate.UnsupportedIsReleasable | shared/artifact-quality-gate.ts:519-543 | a report with success rate 0, collision rate 1 and perfect bounds passes when it gives no `episodes` |
| RewardVocabulary.RewardTracker.Reset | engines/reward_vocabulary.py:57-63 | a reset empties exactly the named environments |
| RewardVocabulary.PayEntry | engines/reward_vocabulary.py:83-139 | one entry pays and slews one environment and leaves the others alone |
| RewardVocabulary.EvaluateFormula | engines/reward_vocabulary.py:66-140 | the evaluation of one environment, its slew state after it, and the others' state unchanged |
| RewardRuns.EvaluateEach | tests/test_reward_expansion_parity.py:418-430 | environments evaluated in turn on one shared tracker are paid as if each had its own |
| RewardEpisodes.TermPaysEntries | engines/reward_vocabulary.py:138-139 | what is reported for a term over an episode is the sum of what its entries pay, whatever else the formula holds |
| RewardEpisodes.EpisodeChases | engines/reward_vocabulary.py:123-134 | in every run the target of a term with m rate-limited entries chases the values since the last reset, rising by at most m slews a step |
| RewardEpisodes.ChaseIsLeast | engines/reward_vocabulary.py:126-133 | the chased target is min(T·m·slew, min_j(v_j + (T-1-j)·m·slew)): whatever came early is forgotten at the slew |
| RewardEpisodes.EpisodePaysShare | engines/reward_vocabulary.py:123-139 | in every run a rate-limited entry has paid its weight times its share of that target, repeated entries included |
| RewardEpisodes.SharesAddUp | engines/reward_vocabulary.py:123-134 | the shares of a term's entries add up to the target, so nothing is paid twice |
| RewardEpisodes.EpisodePaysTarget | engines/reward_vocabulary.py:123-134 | a term's only rate-limited entry has paid its weight times the target, so arriving early buys nothing |
| RewardEpisodes.PotentialPaysNet | engines/reward_vocabulary.py:91-111 | in every run of every formula, with steps unmeasured and any previous values, a potential or shaping entry has paid its weight times the episode's net improvement less the jumps between a measurement and what the next step counts from |
| RewardEpisodes.PotentialTelescopes | engines/reward_vocabulary.py:91-111 | when every step counts from the latest measurement that is the weight times the net improvement, nothing for a return to the start |
| RewardSums.EpisodePaysSum | engines/reward_vocabulary.py:112-122 | over whole runs a penalty has charged its weight times the sum of magnitudes, a bonus has paid its weight times the sum of values, and a smoothness entry has charged its weight times the sum of squared changes, from its introduction on and only where there is a previous value |
| RewardSums.NeverRewarded | engines/reward_vocabulary.py:112-122 | with a weight that is not negative a penalty or a jerk never earns anything over a run |
| RewardSums.RaisesExactly | engines/reward_vocabulary.py:83-139 | an evaluation raises exactly when some measured entry is of an unknown kind or improves in no declared direction |
| RewardSums.OverExactly | engines/reward_vocabulary.py:83-139 | a run is over exactly when one of its evaluations raised |
| RewardVector.EvaluateFormulaVector | engines/reward_vocabulary.py:190-244 | the vectorised loop, for a given or inferred number of environments, computes the vector evaluation and stores its targets |
| RewardVector.VectorRewardTracker.Reset | engines/reward_vocabulary.py:172-187 | keeps every term and the size of its array; exactly the named environments hold zero afterwards, and the others what they held |
| RewardVector.PaymentsAgree | engines/reward_vocabulary.py:200-238 | element i of what the arrays pay is what environment i is paid |
| RewardVector.ColumnsAreEnvironments | engines/reward_vocabulary.py:146-151 | one evaluation: every column is the scalar evaluation of its environment, repeated terms included |
| RewardVector.VectorSimulatesScalar | engines/reward_vocabulary.py:143-244 | over whole runs with full and partial resets, column i is the scalar run of environment i, exception included |
| LegacyReward.TermsPay | scripts/reward-vocabulary.mjs:307-355 | what the expanded terms pay for a step, term by term, after any amount of the goal has been released |
| LegacyReward.ExpansionPays | engines/reward_vocabulary.py:66-140 | the evaluator pays exactly that for every accepted map |
| LegacyReward.ExpansionDiffersBy | engines/reward_vocabulary.py:22-36 | the expansion pays the historical reward plus the shift of the progress sign and the shift of the goal's pace, on every step |
| LegacyReward.ExpansionMatchesHistory | engines/reward_vocabulary.py:22-36 | for every accepted map, goal and fall penalty included, and every step up to the first success: the two agree exactly under a condition on progress, goal, distance closed and success |
| LegacyReward.SuccessDiffers | scripts/reward-vocabulary.mjs:294-302 | three maps on which they differ: a goal of 10 pays 1 on success, a negative goal and a negative progress are paid as positive ones |
| LegacyReward.GoalOverEpisode | scripts/reward-vocabulary.mjs:299-301 | an episode pays a tenth of the goal's magnitude for each success step since the last miss, up to ten, so the goal is paid once exactly when it is positive and the episode ends with at least ten success steps |
| LegacyReward.MissTakesBack | engines/reward_vocabulary.py:126-134 | ten successes and then a miss release nothing; a success, a miss and a success release a tenth |
| DiffusionSchedule.BetaSchedule | engines/diffusion-policy/train_dp.py:347-395 | refused exactly below two steps or for an unknown name; every beta lies in (0, 1) |
| DiffusionSchedule.LinearIsUnclipped | engines/diffusion-policy/train_dp.py:381-382 | the linear table is the straight line from 1e-4 to 0.02, rises strictly, and the clip leaves it alone |
| DiffusionSchedule.CosineBeta | engines/diffusion-policy/train_dp.py:382-392 | a cosine beta carries the squared cosine at one tick to the next, or is the bound that the clip puts in its place |
| DiffusionSchedule.CosineKept | engines/diffusion-policy/train_dp.py:382-417 | as long as the clip is idle, alpha_bar is the squared cosine itself, in parts of its first value |
| DiffusionSchedule.KeptDecays | engines/diffusion-policy/train_dp.py:416-417 | alpha_bar decreases strictly and never vanishes |
| DiffusionSchedule.ScheduleIsConsistent | engines/diffusion-policy/train_dp.py:412-439 | coef1 + coef2·√ab_k = √ab_{k-1} and coef2²(1-ab_k) + σ_k² = 1 - ab_{k-1}, for any betas in (0, 1) |
| DiffusionSchedule.PosteriorFollowsSignal | engines/diffusion-policy/train_dp.py:428-433 | with the true noise the posterior mean keeps the signal of the step before |
| DiffusionSchedule.LastStepIsPrediction | engines/diffusion-policy/train_dp.py:417-438 | the last reverse step has weights 1 and 0 and no noise |
| DiffusionSampler.SampleChunks | engines/diffusion-policy/train_dp.py:693-738 | the reverse loop draws x_T and one z for each step but the last and returns every row's chain, cropped and transposed |
| DiffusionSampler.SamplerNoise | engines/diffusion-policy/train_dp.py:740-756 | row 0 is the x_T draw and row T - k the z of step k |
| DiffusionSampler.Forward | engines/diffusion-policy/train_dp.py:794-815 | the unrolled graph runs the same chain on the frozen noise, de-normalises and clamps |
| DiffusionSampler.SamplesAreBounded | engines/diffusion-policy/train_dp.py:701-715 | every normalised sample lies in [-1, 1], for any denoiser and any noise |
| DiffusionSampler.TargetIsRecovered | engines/diffusion-policy/train_dp.py:717-738 | a denoiser that is right in the last step makes the sampler return its target, whatever the noise |
| DiffusionMarginal.ChainIsMarginal | engines/diffusion-policy/train_dp.py:693-738 | with a denoiser that is always right about a target in [-1, 1], the state after each reverse step is cell by cell √alpha_bar·target plus a fixed combination of the noise rows drawn so far, in which the row of step k starts with weight σ_k |
| DiffusionMarginal.VarianceAddsUp | engines/diffusion-policy/train_dp.py:412-439 | the squared weights of that combination add up to 1 - alpha_bar, up to the carried error of x_T |
| DiffusionSampler.DenormalisingUndoes | engines/diffusion-policy/train_dp.py:814-815 | cropping, transposing, de-normalising and clamping give back every normalised action in [-1, 1] |
| DiffusionSampler.ExportParity | engines/diffusion-policy/train_dp.py:740-774 | the exported artifact is, on every row of any batch, the seeded sampler at batch 1, de-normalised and clamped |
| RecurrentRollout.FrameHistory.Stack | engines/microduck-recurrent/train_recurrent.py:128-132 | shifts and appends in place and returns the same memory |
| RecurrentRollout.FrameHistory.ClearHistory | engines/microduck-recurrent/train_recurrent.py:134-136 | zeroes exactly the given rows |
| RecurrentRollout.WindowOfLongEpisode | engines/microduck-recurrent/train_recurrent.py:116-119 | the window is the last N frames, or the whole episode behind zeros |
| RecurrentRollout.Collect | engines/microduck-recurrent/train_recurrent.py:143-182 | every recorded row is the window of its environment's current episode, for any pattern of resets, and every stored state, output and carried state follows the recurrence with columns zeroed on done |
| RecurrentRollout.ChunkReproduces | engines/microduck-recurrent/train_recurrent.py:81-93 | `sequence` from a stored state gives the outputs of the step-by-step recurrence when no done lies before the chunk's last row |
| RecurrentRollout.RecomputeChunks | engines/microduck-recurrent/train_recurrent.py:205-211 | the chunk loop recomputes every whole chunk and no other |
| RecurrentRollout.RecomputedIsRecorded | engines/microduck-recurrent/train_recurrent.py:205-211 | what the update recomputes is what the rollout recorded, for every column and such chunk |
| RecurrentRollout.StaleStateDiverges | engines/microduck-recurrent/train_recurrent.py:205-211 | with an earlier done there is a cell for which it is not |
| Gae.GaeReturns | engines/dm-control-adapter/adapter.py:577-586 | the backward loop returns advantages plus values |
| Gae.FootballGae | engines/microduck-football/train_football.py:135-149 | the in-place loop fills the same advantages and returns |
| Gae.RecurrentGae | engines/microduck-recurrent/train_recurrent.py:189-197 | so does the third loop, which looks up the next value |
| Gae.AdvantageIsForwardSum | engines/dm-control-adapter/adapter.py:577-586 | an advantage is the discounted sum of deltas up to the first done |
| Gae.DoneSeparates | engines/dm-control-adapter/adapter.py:582-583 | nothing after a done influences earlier rows |
| Gae.MonteCarloReturn | engines/dm-control-adapter/adapter.py:577-586 | with λ = 1, advantage plus value is the discounted reward sum of the segment |
| StreamParser.Parser.Feed | engines/microduck-rl-adapter/adapter.py:227-237 | normalises line ends and takes every complete line |
| StreamParser.Parser.Flush | engines/microduck-rl-adapter/adapter.py:239-243 | takes the rest as a line and commits |
| StreamParser.Parser.TakeLine | engines/microduck-rl-adapter/adapter.py:245-272 | one line: dropped, a header that commits the block before, readings, an ETA that commits |
| StreamParser.Parser.CommitBlock | engines/microduck-rl-adapter/adapter.py:274-307 | reports the pending block once, or drops it when it carries no reward |
| StreamParser.FeedingIsTaking | engines/microduck-rl-adapter/adapter.py:227-237 | a feed is the same as taking its characters one by one |
| StreamParser.ChunkInvariance | engines/microduck-rl-adapter/adapter.py:227-243 | however a text is cut, between CR and LF too, the state after the feeds and after the flush is the same |
| StreamParser.TakenByLines | engines/microduck-rl-adapter/adapter.py:234-237 | the parser's state is a fold over the complete lines |
| StreamParser.PointsFollowHeaders | engines/microduck-rl-adapter/adapter.py:249-307 | the points' iterations form a subsequence of the headers |
| StreamParser.FlushedPointsFollowHeaders | engines/microduck-rl-adapter/adapter.py:239-307 | the same after the flush, with at most one point for each header, and the iteration count is the largest header |
| StreamPoints.CurveOfStream | engines/microduck-rl-adapter/adapter.py:227-307 | however a stream is cut, the curve is one point for each block with a reward, in header order, each field from the last reading of its metric in its own block, and the episode metrics are the last ones of any block |
| FootballTask.WrapAngle | engines/microduck-football/task_machine.py:70-75 | terminates with the same direction within [-π, π] |
| FootballTask.FootballTaskMachine.Switch | engines/microduck-football/task_machine.py:88-94 | switches, restarts the phase clock and logs, keeping at most 64 entries |
| FootballTask.FootballTaskMachine.Step | engines/microduck-football/task_machine.py:96-155 | one tick on what the machine sees of ball, goal and heading |
| FootballTask.KickPhaseIsDead | engines/microduck-football/task_machine.py:113-138 | KICK is never entered and SEARCH never again |
| FootballTask.KicksAreRare | engines/microduck-football/task_machine.py:122-144 | the kick counter counts the kicks, and three ticks pay for each |
| FootballTask.KicksAtMostEveryThirdTick | engines/microduck-football/task_machine.py:96-155 | after T ticks at most T/3 kicks |
| FootballTask.KickExactly | engines/microduck-football/task_machine.py:125-133 | a kick happens exactly in ALIGN within distance 0.38 and alignment error 0.5 |
| FootballTask.PhasesExactly | engines/microduck-football/task_machine.py:113-144 | approach, align and recover are entered or kept exactly on their distance conditions and the kick |
| FootballTask.BetweenKicks | engines/microduck-football/task_machine.py:117-144 | between two kicks the ball is beyond 0.38 and then within 0.33 |
| FootballTask.HistoryIsEndOfLog | engines/microduck-football/task_machine.py:88-94 | the kept history is the last 64 entries of the full switch log |
| FootballTask.ActionsStayNormal | engines/microduck-football/task_machine.py:155 | every command lies in [-1, 1] and the kick is 0 or 1 |
| FootballTask.CommandsSteer | engines/microduck-football/task_machine.py:113-155 | each command is proportional to the error it answers up to full strength: turns follow the heading error, sidesteps oppose it, the stance keeps its distance, and recovery backs off |
| FootballTask.TurnClosesIn | engines/microduck-football/task_machine.py:113-119 | turning at the commanded rate for up to half a second never overshoots and brings the heading strictly closer |
| FootballTask.StageIsBehindBall | engines/microduck-football/task_machine.py:102-103 | the stance lies behind the ball on the line from the goal, at the staging distance |

## Left out

- Networks, optimisers, ONNX export, physics, latency probes and the training loops around the modelled pieces: foreign libraries.
- Floating-point rounding and the difference between float32 and float64, apart from the float32 cells of the conversion.
- TrajectoryRows.LoadTrajectoryDataset: camera frames are not modelled, so neither their validation nor the rule that all steps or none carry one; the same holds for the two members below.
- TrajectoryRows.TrajectoryDataset.AppendStep: no camera presence check, as above.
- TrajectoryRows.TrajectoryDataset.ConsumeStep: a row's `cameraFrame` is ignored, and an integer beyond the range of a double is refused like a NaN, where `math.isfinite` raises an overflow error.
- LeRobotTables.WriteDataset: videos and the fields of meta/info.json that no import reads are not written.
- LeRobotTables.RunExport: the refusals and the clean-up of the output directory are file-system work.
- LeRobotImport.RunImport: tabular import only, of datasets that declare no cameras, without the summary that is returned; the lengths in episodes.jsonl arrive read or unreadable.
- Files, JSON text reading and line splitting, parquet and its paths: a line arrives as blank, broken or a parsed value, and shards are read in an arbitrary order. What a task name does to its line is modelled on its text, and the JSON text of the canonical printer in full.
- A `frame_index` cell that is a string is refused, although Python's `float` would read some strings.
- StreamParser.Parser.CommitBlock: the wall-clock field of a point and the line that is printed for it are left out.
- The regular expressions and escape-code stripping of the log parser are a function of the line, of which only is assumed that it drops the empty line.
- WorkflowValidation.ValidateWorkflowSpec: kinds, triggers, statuses and counters are typed, so the branches that refuse a value of another JavaScript type are not there; the failure names of the resource and parameter validators are merged into one each, and which failure is named when several apply is not stated.
- Sparse arrays, accessors, symbols and class instances in parameter trees.
- ReleaseGate.ValidateForRelease: says which checks fail, as error values, but not their texts, the echoed rates or the echoed gate mode. Numbers that are not finite or not numbers are one case each.
- ReleaseGate.PassedBoundsAreReal: speaks of reports that give `episodes`; without them nothing ties the bounds to the observed rates, which is `ReleaseGate.RatesIgnoredWithoutEpisodes`.
- RewardVector.EvaluateFormulaVector: feature and previous arrays have one entry for each environment, as its documentation asks; numpy would also broadcast an array of length one. A term is measured for all environments or for none, and `previous` likewise.
- LegacyReward.ExpansionPays: the engine-capability part of the expansion, which refuses terms an engine cannot measure, is left out.
- RecurrentRollout.Collect: one iteration with one set of weights; the frames and done flags the environments return are arbitrary, so their dependence on the actions is not modelled, nor are the buffers of actions, log-probabilities and rewards.
- RecurrentRollout.RecomputedIsRecorded: is about the weights of the rollout; the optimiser changes them from chunk to chunk.
- DiffusionSampler.ExportParity: the frozen noise is drawn in float32 and the sampler's in float64; here one stream serves both.
- The replication of rewards over agents before the football GAE loop.
- Shapes of grids that do not match in the sampler: a cell outside a grid reads as zero instead of raising.
- The field-by-field validators of datasets, packs and contracts, the closed tables of kinds and capabilities, the read models, HTTP routes, authentication and user interface: finite tables, and checks of one branch each that keep no state.
