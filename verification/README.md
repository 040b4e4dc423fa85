# Verified model of the agent-gateway scripts

This project models the self-contained algorithms and state machines behind the gateway's
evaluation, harvesting and build tooling, and proves what they promise for every input, every
run and every crash point. `dafny verify dfyconfig.toml` checks all of it.

| file | part of the system |
|---|---|
| `Auroc.dfy`, `OffloadCurve.dfy` | the escalation-gate statistics: rank AUROC, offload curve, minimum frontier rate |
| `HtmlTables.dfy`, `GfmTable.dfy`, `Whitespace.dfy` | nested HTML tables to GitHub-flavoured Markdown (section 4.10 of the GitHub Flavored Markdown Spec) |
| `PlanScanner.dfy` | the bracket scanner that finds a JSON plan in model output (sections 5 and 7 of RFC 8259) |
| `Trace.dfy`, `Orchestration.dfy` | the plan, execute, integrate loop, its leaf executors and the trace it emits |
| `Matching.dfy`, `Scorer.dfy`, `GateVerdict.dfy` | the deterministic scorer over the same traces, the Gate E verdict and the pivotal check |
| `Harvest.dfy`, `JudgeRetry.dfy` | the evidence-harvesting protocol over the ledger and the judge's retry loop |
| `Chunking.dfy` | greedy note chunking |
| `ArtifactPull.dfy` | the staged artifact writer |

How the outside world enters the model:

- Scores, rates and coverages are exact (`real` and integers).
- HTML arrives as a token stream (table, row and cell tags, and text); what the tag stripping and entity
  decoding make of a cell's tokens is the arbitrary function `strip`. Whether a candidate plan parses as a
  non-empty JSON array is the arbitrary predicate `accepts`.
- Brain, leaf, advisor, distiller and judge replies are arbitrary functions of the step or attempt, each
  reply being an answer or an exception.
- The harvest's crash point, its sampled pool and the judge's grade for each row are inputs of a run. The
  ledger's content-hash id is treated as injective, so two records collide exactly when they are equal.
- The worktree is a map from paths to files, directories and special entries; the random temporary names
  are inputs.

Where the code does not do what one would like, the model keeps the code and the results say exactly when:

- The stage checklist's comment calls first-fit assignment sound for the D3 stages. It is sound, but not
  complete: with leaves data-transform then qa-factual the only leaf that can aggregate is spent on
  extract. `Scorer.D3Exact` gives the failing family exactly, `Scorer.SourceOrderLosesHere` an input of the
  source's own lexicon.
- The import ignores a record the ledger already holds, live or superseded. A graded request is live after a
  run if and only if its record was new (`Harvest.RecordedIsLive`), and a rejudge campaign keeps its schedule
  if and only if every selected row is graded and no record was held (`Harvest.CampaignDrains`). Under a
  version new to the ledger every graded row lands (`Harvest.FreshEpochLands`); when a version returns, a
  request that had a live verdict can be left without one (`Harvest.ReturningEpochLosesVerdict`, a history from
  an empty ledger).
- Rows of an excluded type are never recorded and keep their places in a rejudge selection
  (`Harvest.ExcludedRowsKeepTheirSlots`).
- The 1e-9 tolerance admits a missed item once there are 5*10^8 items per miss; `OffloadCurve.IsoQualityFrontier`
  says exactly when the reported minimum is the intended one, `OffloadCurve.ToleranceHidesOne` where it is not.
- E4's rounding admits a missed gap task from 2000 gap tasks on; E1's admits a deficit below 0.101; E3's admits
  a mean coverage of 84.95% and a lowest of 59.95%.
- A leaf that the substrate escalates after a local attempt loses the local attempt's tokens
  (`Orchestration.RealLeafMetering`, with `Orchestration.LocalAttemptIsLost` such a leaf).
- `pull` is all or nothing unless a requested path is a directory above a later one; then it stops half way
  (`ArtifactPull.AncestorStopsHalfWay` pulls such a request).
- `chunkNotes` of no notes is one empty chunk, one more than the fewest.

## Model

| member | source | states |
|---|---|---|
| `Auroc.RankAuroc` | scripts/cascade-gate-experiment.ts:40-57 | the rank form with averaged ties equals the pair count: (positive scored higher + half the ties) / (nPos * nNeg); none if a class is empty |
| `Auroc.SortByScore` | scripts/cascade-gate-experiment.ts:44 | the rows sorted by score, as a permutation of the input |
| `Auroc.TieGroupEnd` | scripts/cascade-gate-experiment.ts:49 | the last row of the tie group, with a strictly higher score after it |
| `Auroc.AverageRanks` | scripts/cascade-gate-experiment.ts:45-53 | twice each rank is one more than twice the rows below plus the rows level |
| `Auroc.SumPositiveRanks` | scripts/cascade-gate-experiment.ts:54-55 | the rank sum of the positives is their pair credit against all rows |
| `Auroc.RankSumIsConcordance` | scripts/cascade-gate-experiment.ts:56 | the closing formula removes the positives' credit among themselves and leaves the pair definition |
| `Auroc.PairComplement` | scripts/cascade-gate-experiment.ts:40-57 | credits of X over Y and of Y over X add up to all pairs |
| `Auroc.CountsPairs` | scripts/cascade-gate-experiment.ts:40-57 | the wins and ties of the pair count are the numbers of pairs of positions with the first score higher, and level |
| `Auroc.OrderDoesNotMatter` | scripts/cascade-gate-experiment.ts:40-57 | any permutation of the rows has the same AUROC |
| `Auroc.ConcordanceInRange` | scripts/cascade-gate-experiment.ts:40-57 | it lies in [0,1] and is 1 exactly when every positive beats every negative |
| `Auroc.NegatingReflects` | scripts/cascade-gate-experiment.ts:40-57 | negating all scores turns it into 1 minus itself |
| `OffloadCurve.DistinctScores` | scripts/cascade-gate-experiment.ts:73 | exactly the observed scores, strictly increasing |
| `OffloadCurve.PointAt` | scripts/cascade-gate-experiment.ts:76-88 | frontier rate and accuracy are the escalated share and one minus the missed share |
| `OffloadCurve.Curve` | scripts/cascade-gate-experiment.ts:70-90 | one point per distinct score plus infinity, in order; empty for no items |
| `OffloadCurve.CurveFalls` | scripts/cascade-gate-experiment.ts:70-90 | along the curve the frontier rate strictly falls and accuracy never rises |
| `OffloadCurve.MinFrontier` | scripts/cascade-gate-experiment.ts:92-97 | the least frontier rate among the points reaching the target, none if there is none |
| `OffloadCurve.ReachesTarget` | scripts/cascade-gate-experiment.ts:94 | a point reaches the iso-quality target exactly when 5*10^8 times its misses is at most the item count |
| `OffloadCurve.IsoQualityFrontier` | scripts/cascade-gate-experiment.ts:273-275 | the minimum is the share scored at or above the lowest wrong item if and only if the wrong items at that score are too many for the tolerance |
| `OffloadCurve.IsoQualityBelowLimit` | scripts/cascade-gate-experiment.ts:273-275 | below 5*10^8 items it always is that share |
| `OffloadCurve.ZeroFrontier` | scripts/cascade-gate-experiment.ts:273-275 | the minimum is zero if and only if at most one item in 5*10^8 is wrong |
| `OffloadCurve.IsoQualityAllRight` | scripts/cascade-gate-experiment.ts:273-275 | with nothing wrong the minimum is zero |
| `OffloadCurve.ToleranceHidesOne` | scripts/cascade-gate-experiment.ts:273-275 | one wrong item below 499999999 or more right ones: the reported minimum is zero, the intended one is every item |
| `OffloadCurve.PerfectGate` | scripts/cascade-gate-experiment.ts:265-275 | with both classes present the minimum equals the error rate if and only if AUROC is 1 |
| `HtmlTables.MatchingClose` | scripts/frames-html-md.ts:108-124 | the depth walk finds the matching close, or there is none |
| `HtmlTables.MatchIsUnique` | scripts/frames-html-md.ts:108-124 | an opener has at most one matching close |
| `HtmlTables.MatchesNest` | scripts/frames-html-md.ts:94-140 | matched spans nest or are disjoint |
| `HtmlTables.ExtractTopLevelTables` | scripts/frames-html-md.ts:100-140 | on every token stream, balanced or not, exactly the outermost matched spans, in order and disjoint |
| `HtmlTables.StackFindsMatches` | scripts/frames-html-md.ts:94-140 | a one-pass stack matcher finds exactly the matched pairs |
| `HtmlTables.ExtractorAgreesWithStack` | scripts/frames-html-md.ts:100-140 | the rescanning extractor returns exactly the outermost pairs of the stack matcher |
| `HtmlTables.Splice` | scripts/frames-html-md.ts:303-311 | prose slices and table spans concatenate back to the page, each table being its own span |
| `HtmlTables.TopLevelRows` | scripts/frames-html-md.ts:148-169 | the depth-counting loop computes the row scan on any stream |
| `HtmlTables.RowsAreOwn` | scripts/frames-html-md.ts:148-169 | on any stream, well formed or not, that is the inside of every own row opener whose next own row tag is a closer, all of them, in order |
| `HtmlTables.TopLevelCells` | scripts/frames-html-md.ts:172-198 | the loop computes the cell scan on any stream |
| `HtmlTables.CellsAreOwn` | scripts/frames-html-md.ts:172-198 | on any stream, the inside and th flag from the first own cell opener since the last own closer to the next own closer, all of them, in order |
| `HtmlTables.PairsAreSpans` | scripts/frames-html-md.ts:148-198 | one scan over opening and closing marks finds exactly those spans, under either rule for a second opener |
| `HtmlTables.RowsRoundTrip` | scripts/frames-html-md.ts:142-169 | for every table tree, however deeply tables nest in cells, the rows come back exactly |
| `HtmlTables.CellsRoundTrip` | scripts/frames-html-md.ts:171-198 | for every row its own cells and th flags come back, nested tables whole inside their cell |
| `HtmlTables.PrintedTableIsExtracted` | scripts/frames-html-md.ts:100-140 | a printed table is a matched span anywhere, and an outermost one after table-free text |
| `GfmTable.CollectRows` | scripts/frames-html-md.ts:202-210 | the non-empty rows with escaped cell texts and header flags |
| `GfmTable.CountThIs` | scripts/frames-html-md.ts:207-209 | the th count equals the cell count exactly when every cell is a th |
| `GfmTable.PadCells` | scripts/frames-html-md.ts:215-219 | the cells followed by empty ones up to the width |
| `GfmTable.BodyLines` | scripts/frames-html-md.ts:234-236 | one padded line per body row |
| `GfmTable.TableToMarkdown` | scripts/frames-html-md.ts:201-238 | for every token stream the printed table, read back cell by cell: the k-th row with cells stands on its line with the collapsed text of its j-th cell and blanks after the last, an all-th first row above the dashes and a blank header otherwise, all lines as wide as the longest row; empty when no row has cells |
| `GfmTable.CollectedArePlain` | scripts/frames-html-md.ts:202-210 | the collected rows of any stream are its collapsed cell texts, escaped |
| `GfmTable.StreamReadsBack` | scripts/frames-html-md.ts:201-238 | the same of the rendering function, and that the rows shown are exactly those with cells, in order |
| `GfmTable.GridShows` | scripts/frames-html-md.ts:213-236 | padding and header choice put every text where it belongs |
| `GfmTable.UnescapeEscape` | scripts/frames-html-md.ts:73-75 | unescaping undoes the pipe escape, whatever backslashes the text holds |
| `GfmTable.LineRoundTrip` | scripts/frames-html-md.ts:232-236 | splitting a line at pipes not preceded by a backslash, trimming and unescaping gives back its cells |
| `GfmTable.GridRoundTrip` | scripts/frames-html-md.ts:232-237 | the same for all lines together |
| `GfmTable.TableRoundTrip` | scripts/frames-html-md.ts:211-237 | reading the printed table gives header, separator and every padded row; all have the full width and none is lost |
| `GfmTable.TreeReadsBack` | scripts/frames-html-md.ts:148-238 | from table tree through both scanners and the printer, the reader gets every cell text of the tree in its place |
| `Whitespace.CollapseIsClean` | scripts/frames-html-md.ts:73-74 | collapsed and trimmed text has no line break and no blank at either end |
| `Whitespace.CollapseExact` | scripts/frames-html-md.ts:73-74 | collapsing keeps every character that is not white space, in order, neighbours stay neighbours, and each gap between two becomes one blank |
| `Whitespace.TrimmedAway` | scripts/gate-e-score.ts:149-151 | a text trims to nothing exactly when it is all white space |
| `PlanScanner.BalancedArrayFrom` | scripts/gate-e-bench.ts:154-174 | the loop returns the balanced span of the scanner's specification, or none if it never closes |
| `PlanScanner.ExtractJsonArray` | scripts/gate-e-bench.ts:176-191 | the span at the first bracket whose span is accepted, none if there is no such bracket |
| `PlanScanner.JsonIsTransparent` | scripts/gate-e-bench.ts:152-174 | every printed JSON value leaves the scanner's depth and string state as they were |
| `PlanScanner.ArrayIsItsOwnSpan` | scripts/gate-e-bench.ts:154-174 | after any prefix and before any suffix, the span at a printed array is that array's text, whatever its strings hold |
| `PlanScanner.PlanIsExtracted` | scripts/gate-e-bench.ts:176-191 | an accepted array is returned if nothing before it is accepted |
| `PlanScanner.PlanAfterBracketFreeProse` | scripts/gate-e-bench.ts:176-191 | in particular after bracket-free prose |
| `Orchestration.Pick` | scripts/gate-e-bench.ts:314-327 | an unread source if there is one, then the highest overlap, then the earliest |
| `Orchestration.CorpusReadState.ReadLeaf` | scripts/gate-e-bench.ts:306-344 | the best source (unread first, then overlap, then earliest) is marked read even if distilling throws; the call reports it under its tag with the distiller's tokens and is never escalated |
| `Orchestration.ExecuteSteps` | scripts/gate-e-bench.ts:463-539 | calls, errors and reads are those of the step function the lemmas below are about |
| `Orchestration.PlanStage` | scripts/gate-e-bench.ts:448-461 | plan, error and metered tokens of the planning call |
| `Orchestration.RunOrchestration` | scripts/gate-e-bench.ts:422-662 | the emitted trace is that of the plan, execute, integrate specification |
| `Orchestration.IntegrationReported` | scripts/gate-e-bench.ts:564-661 | what the trace says of every run: labels and calls, the integrate text as answer or as report and answer, reads, and the first error |
| `Orchestration.TokensAreConserved` | scripts/gate-e-bench.ts:422-662 | for every run the trace's total is the sum over every brain, leaf and advisor response, each once |
| `Orchestration.AdvisorIsCapped` | scripts/gate-e-bench.ts:489-539 | at most K advisor calls; none outside the advisor arm or in a grounded run |
| `Orchestration.AdvisorAnswersExactly` | scripts/gate-e-bench.ts:489-539 | in every ungrounded advisor run an executed step is answered by the advisor if and only if it asks (ASK_ADVISOR or escalate), fewer than K were answered before, and the advisor answers; all other steps are the executor's, and the calls, questions and tokens are theirs |
| `Orchestration.FirstAskersAreAdvised` | scripts/gate-e-bench.ts:489-539 | when nothing throws there are min(K, asking steps) advisor calls, the k-th with the k-th asking step's question |
| `Orchestration.ErrorsAreRecorded` | scripts/gate-e-bench.ts:459-539 | an ungrounded advisor run has an error if and only if planning failed, it was cut short, or the advisor failed a step put to it |
| `Orchestration.AskingAre` | scripts/gate-e-bench.ts:500 | the asking steps are listed completely and in order |
| `Orchestration.FrontierIsAdvisorOnly` | scripts/gate-e-bench.ts:361-364 | with a substrate-only executor frontier tokens are the advisor's, exactly |
| `Orchestration.NoChannelIsSubstrateOnly` | scripts/gate-e-bench.ts:366-414 | without a frontier channel the real executor is substrate-only |
| `Orchestration.RealLeafMetering` | scripts/gate-e-bench.ts:386-413 | escalated exactly when the frontier answered; all spend metered except a local attempt before a substrate escalation |
| `Orchestration.LocalAttemptIsLost` | scripts/gate-e-bench.ts:399-402 | a leaf that spends 42 tokens and meters 30 |
| `Orchestration.CutShortIsError` | scripts/gate-e-bench.ts:467-539 | leaf calls answer a prefix of the plan in order, all of it without an error; any error or cut-short run is an error collapse |
| `Orchestration.PickReadsNew` | scripts/gate-e-bench.ts:314-327 | each step reads a new source until none is left |
| `Orchestration.GroundedRunReadsItsPlan` | scripts/gate-e-bench.ts:591-609 | a grounded D1 run with output and no error reads min(plan, corpus) sources and is under-read exactly when 5 * plan < 3 * corpus |
| `Trace.FrontierWithinTotal` | scripts/gate-e-score.ts:230-249 | escalated leaf tokens are part of the leaf tokens |
| `Trace.TokensSplit` | scripts/gate-e-score.ts:230-249 | every token of a trace is the brain's, a local leaf's or the frontier's |
| `Scorer.LongestCharRun` | scripts/gate-e-score.ts:106-123 | the length of a longest run of one non-blank character |
| `Scorer.HasRepeatedActionLoop` | scripts/gate-e-score.ts:125-139 | true exactly when three consecutive actions are equal |
| `Scorer.ClassifyCollapse` | scripts/gate-e-score.ts:141-167 | each flag if and only if its own condition holds and no earlier one: timeout, error, nothing but white space written, fewer than 3 in 5 sources read, three equal actions or a 400-character run; no collapse exactly when none holds |
| `Scorer.CollapseIsRight` | scripts/gate-e-score.ts:141-167 | the same of the classification function |
| `Scorer.StepCoversExact` | scripts/gate-e-score.ts:31-44 | covered exactly when a token is shared, and two different ones if the requirement has three or more |
| `Scorer.StageChecklistCovered` | scripts/gate-e-score.ts:210-228 | the consuming loop decides the greedy checklist |
| `Scorer.FindFree` | scripts/gate-e-score.ts:221-223 | the search finds the earliest unconsumed realising leaf |
| `Scorer.FirstFree` | scripts/gate-e-score.ts:221-223 | the earliest unconsumed realising leaf, none if there is none |
| `Scorer.GreedySound` | scripts/gate-e-score.ts:195-228 | a passed checklist yields an injective assignment of uncovered stages to realising, unconsumed leaves |
| `Scorer.CheckedIsAssignable` | scripts/gate-e-score.ts:195-228 | so passing implies an assignment exists |
| `Scorer.GreedyMonotone` | scripts/gate-e-score.ts:210-228 | appending plan steps or leaves never turns a pass into a failure |
| `Scorer.D3Exact` | scripts/gate-e-score.ts:188-228 | the D3 checklist passes if and only if an assignment exists and extract does not spend the only leaf that can aggregate |
| `Scorer.D3CompleteWithoutQa` | scripts/gate-e-score.ts:206-209 | without qa-factual leaves it passes exactly when an assignment exists |
| `Scorer.GreedyOrderCanLose` | scripts/gate-e-score.ts:206-209 | data-transform then qa-factual, the other two stages named: an assignment exists and the checklist fails, for any lawful lexicon |
| `Scorer.SourceOrderLoses` | scripts/gate-e-score.ts:206-209 | the same with the code's own tokens and stage types, for any one-word subtasks that name no stage |
| `Scorer.SourceOrderLosesHere` | scripts/gate-e-score.ts:206-209 | a concrete plan and two leaves of that kind |
| `Matching.SourceIsLawful` | scripts/gate-e-score.ts:24-44 | the code's normalisation, tokens and stage types satisfy what the checklist results assume of them |
| `Matching.WordsNormalized` | scripts/frames-evidence.ts:15-21 | normalising before tokenising changes no word |
| `GateVerdict.AggregateArm` | scripts/gate-e-verdict.ts:35-92 | the arm's roll-up, its minimum coverage being the least coverage, at most 1, and 0 without tasks |
| `GateVerdict.AggregateIsUnique` | scripts/gate-e-verdict.ts:35-92 | scores determine the roll-up; judge scores fill only their own field |
| `GateVerdict.CriteriaHold` | scripts/gate-e-verdict.ts:104-181 | looking a criterion up by its id gives that criterion's own condition |
| `GateVerdict.PassesExactly` | scripts/gate-e-verdict.ts:104-181 | an arm passes if and only if its scores and A0's meet the six conditions, each in counts, sums and judge numbers |
| `GateVerdict.EconomyBound` | scripts/gate-e-verdict.ts:94-98 | E6 holds exactly when A0's brain and frontier tokens are none or at least four times the candidate's frontier tokens |
| `GateVerdict.EconomyOnTraces` | scripts/gate-e-verdict.ts:165-176 | the same in the tokens of the runs' traces |
| `GateVerdict.JudgeBound` | scripts/gate-e-verdict.ts:152-163 | E5 holds exactly when both arms were judged, the candidate at most half a point lower and nowhere below 3 |
| `GateVerdict.AggregateSums` | scripts/gate-e-verdict.ts:43-73 | the roll-up's token sums, size and absence of collapses |
| `GateVerdict.JudgeOnlyMovesE5` | scripts/gate-e-verdict.ts:152-163 | judge input changes no criterion but E5 |
| `GateVerdict.PivotalIffSomeJudgePasses` | scripts/gate-e-apply-verdict.ts:22-30 | an arm is pivotal if and only if some judge scores for it and the reference make it pass |
| `GateVerdict.BuildVerdicts` | scripts/gate-e-apply-verdict.ts:47-70 | one verdict per present candidate in order; the gate is passed if and only if the scores of some scored candidate and of A0 and the judge's numbers meet all conditions; none without the reference |
| `GateVerdict.GateExactly` | scripts/gate-e-apply-verdict.ts:60-69 | the same of any such list of verdicts |
| `GateVerdict.NoPivotNoPass` | scripts/gate-e-apply-verdict.ts:22-26 | if no candidate is pivotal, the gate fails for every judge input |
| `GateVerdict.RecallBound` | scripts/gate-e-verdict.ts:58-62 | gap recall passes exactly when 2000 times the missed gap tasks is at most their number; up to 1999 it means all escalated |
| `GateVerdict.RecallFirstFailure` | scripts/gate-e-verdict.ts:29-32 | 2000 gap tasks are the first at which one may be missed |
| `GateVerdict.OverEscalationBound` | scripts/gate-e-verdict.ts:64-69 | over-escalation passes exactly when there are no non-gap leaves or 2000 * escalated < 201 * leaves |
| `GateVerdict.AnswerRateBound` | scripts/gate-e-verdict.ts:110-111 | E1 passes exactly when the two arms' pass counts, in rounded thousandths, are at most 100 apart; a true pass never fails and the deficit is below 0.101 |
| `GateVerdict.CoverageBound` | scripts/gate-e-verdict.ts:133-135 | E3 passes exactly when there are tasks, their mean coverage is at least 0.8495 and each at least 0.5995 |
| `GateVerdict.AnswerRateBoundIsSharp` | scripts/gate-e-verdict.ts:110-111 | deficits arbitrarily close to 0.101 do pass |
| `GateVerdict.CutShortRunFailsItsArm` | scripts/gate-e-verdict.ts:121-131 | one run cut short or in error makes its arm fail and not even pivotal, whatever else it scored |
| `GateVerdict.SpoiltRunFailsItsArm` | scripts/gate-e-verdict.ts:121-131 | so does one run that timed out, wrote nothing, read too little or got stuck |
| `Harvest.Ledger.Supersede` | src/homeserver/ledger.ts:604-635 | exactly the live rows of the tag and ids are retired; nothing is deleted |
| `Harvest.Ledger.Import` | src/homeserver/ledger.ts:513-592 | records already held, live or superseded, are ignored; the others are appended live |
| `Harvest.StampIsCurrent` | src/homeserver/harvest.ts:638-653 | a stamp built under a version is read back as current for that version |
| `Harvest.CurrentPolicyExact` | src/homeserver/harvest.ts:643-653 | a stamp is current exactly when it is the version alone or the version, a bar and settings |
| `Harvest.LoadPolicyState` | scripts/harvest-verdicts.ts:145-195 | current ids are those with a live verdict of this version, stale ids those with only other live verdicts |
| `Harvest.StateIsUnique` | scripts/harvest-verdicts.ts:145-195 | the ledger determines both sets |
| `Harvest.GradeRows` | scripts/harvest-verdicts.ts:484-583 | records and ids to supersede are those of the planned row actions |
| `Harvest.FateOfSelected` | scripts/harvest-verdicts.ts:228-246 | over the ledgers before and after a completed run, the fate of every selected request: untouched if self-graded, current, or live without rejudge; without a live verdict if its type is excluded; untouched if it could not be graded; else its one live verdict is the new record, unless the ledger already held that |
| `Harvest.UnselectedKeep` | scripts/harvest-verdicts.ts:484-608 | requests that are not selected keep their live rows |
| `Harvest.FateInCrash` | scripts/harvest-verdicts.ts:590-608 | a crash before the writes leaves the ledger, one between them frees exactly what was to be replaced or retired |
| `Harvest.SelectsEarliest` | scripts/harvest-verdicts.ts:210-218 | a rejudge run takes the earliest requests of its pool without a current verdict |
| `Harvest.HarvestRun` | scripts/harvest-verdicts.ts:439-608 | the ledger after a run, for every mode and crash point |
| `Harvest.SelectedAreDistinct` | scripts/harvest-verdicts.ts:210-218 | a selection has distinct rows of the pool, under rejudge none of them current |
| `Harvest.RecordsAreImportable` | scripts/harvest-verdicts.ts:585-608 | after the supersede step every record is for a request without a live verdict |
| `Harvest.RunKeepsOneLive` | scripts/harvest-verdicts.ts:133-143 | every run, wherever it crashes, keeps at most one live verdict per request and tag |
| `Harvest.NeverTwoLive` | scripts/harvest-verdicts.ts:133-143 | so does every sequence of runs from an empty ledger |
| `Harvest.RunExtends` | scripts/harvest-verdicts.ts:585-608 | a run only retires or appends, touches only its own tag, and a dry run changes nothing |
| `Harvest.PlainRunAltersNothing` | scripts/harvest-verdicts.ts:235-246 | a run without the rejudge flag leaves every existing row as it is |
| `Harvest.HistoryExtends` | scripts/harvest-verdicts.ts:133-143 | over a history nothing is deleted, and stretches without rejudge alter nothing |
| `Harvest.CrashLeavesRequestsFree` | scripts/harvest-verdicts.ts:137-143 | after a crash between the writes a superseded request is graded as new by any later run |
| `Harvest.ImportExact` | src/homeserver/ledger.ts:507-512 | the import appends exactly the records not yet held |
| `Harvest.LiveAfter` | scripts/harvest-verdicts.ts:585-608 | for every ledger, live after a completed run are the requests whose record lands and those live before and not superseded |
| `Harvest.RecordedIsLive` | scripts/harvest-verdicts.ts:585-608 | a graded request is live after the run if and only if its record was not already held |
| `Harvest.CurrentAfter` | scripts/harvest-verdicts.ts:210-246 | for every ledger, a completed run adds exactly the requests whose record lands to the current ones |
| `Harvest.SelectedSize` | scripts/harvest-verdicts.ts:210-218 | it selects min(n, pending) rows |
| `Harvest.RejudgeProgress` | scripts/harvest-verdicts.ts:203-218 | for every ledger, pending falls by the rows that land, and by the whole selection if and only if all of it is graded and no record already held |
| `Harvest.CampaignDrains` | scripts/harvest-verdicts.ts:203-218 | pending is max(0, pending - j * n) after every run j if and only if in every run all selected rows land |
| `Harvest.FreshEpochLands` | scripts/harvest-verdicts.ts:203-218 | if no verdict of the version was superseded, every graded row lands and that stays so |
| `Harvest.FreshCampaignDrains` | scripts/harvest-verdicts.ts:203-218 | from such a ledger grading every selected row is enough to drain on schedule |
| `Harvest.ExcludedRowsKeepTheirSlots` | scripts/harvest-verdicts.ts:210-246 | if excluded rows fill the selection, the next run selects the same rows |
| `Harvest.ReturningEpochLosesVerdict` | src/homeserver/ledger.ts:507-512 | for any request and two versions: three completed rejudge runs from an empty ledger after which a request that had a live verdict has none |
| `JudgeRetry.JudgeWithRetry` | scripts/harvest-verdicts.ts:309-354 | for any outcomes, escalation and cap: at most retries + 1 calls, their budgets, and exactly when it goes on, answers or gives up |
| `JudgeRetry.TransientsAreRetried` | scripts/harvest-verdicts.ts:346-349 | transient failures are retried at the same budget up to the limit |
| `JudgeRetry.StarvedStops` | scripts/harvest-verdicts.ts:336-345 | a starved attempt is the last one exactly at the limit or when escalating would not enlarge the effective budget |
| `JudgeRetry.EscalationRule` | src/homeserver/harvest.ts:422-435 | escalation doubles up to the cap and never lowers a budget |
| `JudgeRetry.CapGrants` | src/homeserver/harvest.ts:370-380 | the cap grants a request between floor and room, else the room or the floor |
| `JudgeRetry.BudgetsNeverFall` | scripts/harvest-verdicts.ts:309-354 | effective budgets never fall and rise strictly across a starvation |
| `JudgeRetry.AtMostTwoEscalations` | src/homeserver/harvest.ts:422-435 | from the default budget at most two escalations happen, to 8000 and 16000 |
| `JudgeRetry.SkippedExactly` | src/homeserver/harvest.ts:390-420 | a row is skipped if and only if its mandatory input leaves no room for the smallest completion |
| `JudgeRetry.ContextIsLargest` | src/homeserver/harvest.ts:390-420 | the planned context is the largest up to the requested one that leaves room for the smallest completion |
| `JudgeRetry.PlannedInputFits` | src/homeserver/harvest.ts:390-420 | mandatory input plus planned context leave that room |
| `JudgeRetry.EveryCallFits` | src/homeserver/harvest.ts:361-380 | for every row not skipped, estimated input, margin and completion fit the window on every attempt |
| `Chunking.ChunkNotes` | scripts/dr-ablation.ts:316-332 | chunks keep order and content, none of two or more notes exceeds the ceiling, and no such partition has fewer |
| `Chunking.TotalIsText` | scripts/dr-ablation.ts:321 | what the ceiling limits is the length of the combined text |
| `Chunking.GreedyIsPartition` | scripts/dr-ablation.ts:316-332 | the greedy chunks are such a partition into non-empty chunks |
| `Chunking.GreedyStaysAhead` | scripts/dr-ablation.ts:316-332 | from any open chunk, greedy needs no more chunks than a partition that cut earlier |
| `Chunking.GreedyIsOptimal` | scripts/dr-ablation.ts:316-332 | no partition obeying the rule has fewer chunks |
| `ArtifactPull.Worktree.MakeParents` | client/m5-build-files.py:53-69 | succeeds exactly when no entry above the path is in the way, and adds only directories above it |
| `ArtifactPull.Worktree.Stage` | client/m5-build-files.py:175-187 | succeeds exactly when parents, destination and temporary name are free, and then adds only the staged file |
| `ArtifactPull.Worktree.Validate` | client/m5-build-files.py:166-174 | accepts exactly safe, new, decodable artifacts within both size limits |
| `ArtifactPull.SafeComponentExact` | client/m5-build-files.py:31-36 | a component is safe exactly when it names an entry, has no backslash or NUL, and is no secrets, .git or .env name in any letter case |
| `ArtifactPull.SafePathStaysInside` | client/m5-build-files.py:31-69 | walking a safe path as the filesystem does never leaves the root and ends at the path itself, through no such component |
| `ArtifactPull.PathLengthIs` | client/m5-build-files.py:32 | the limited length is that of the path's text in UTF-8 |
| `ArtifactPull.Worktree.StageAll` | client/m5-build-files.py:165-190 | stages up to the first inadmissible artifact, with every earlier file unchanged |
| `ArtifactPull.Worktree.RenameAll` | client/m5-build-files.py:191-194 | renames up to the first destination that is a directory above another request |
| `ArtifactPull.Worktree.Cleanup` | client/m5-build-files.py:195-202 | removes exactly the staged names |
| `ArtifactPull.Worktree.Pull` | client/m5-build-files.py:159-202 | refuses exactly the inadmissible requests, changing no file; is done exactly when no path is above another, every file then holding its bytes and all else unchanged; no temporary entry survives |
| `ArtifactPull.StageDecides` | client/m5-build-files.py:165-190 | whether an artifact can be staged depends only on the tree before the call and the artifacts before it |
| `ArtifactPull.RenameBlocked` | client/m5-build-files.py:191-194 | a rename can fail only at a path above another request |
| `ArtifactPull.PlacedIsNotAbove` | client/m5-build-files.py:191-194 | a path renamed into place is above no request |
| `ArtifactPull.PairIsAdmissible` | client/m5-build-files.py:165-190 | a request with a path above another that is staged whole on an empty worktree |
| `ArtifactPull.AncestorStopsHalfWay` | client/m5-build-files.py:191-194 | pulling it puts the first file in place and stops at the second |

## Left out

- Double-precision effects: all arithmetic is exact; in JavaScript 0.8 - 0.1 is above 0.7, so E1 at that exact boundary differs.
- Regular-expression text work: tag stripping, entity decoding, script and comment removal, `blocksToMarkdown`, the final blank filtering of the spliced parts, and Unicode folding beyond ASCII.
- Skipping of navigation tables by class: such a table is a span like any other here.
- The D1 report split, D2 code extraction, `parsePlan` coercion and the prompt texts: the split is an arbitrary function of the integrate text, a parsed plan an arbitrary non-empty sequence of steps.
- Answer grading, `planCoverage`, `escalationMetrics` and `recommend`: easy members; their results enter the verdict as arbitrary numbers.
- `runA2D1Task`, arm orchestration, judge prompts, the console and Markdown reports, command lines and network clients.
- SQLite itself: the ledger is a sequence of rows, each write is atomic, and runs do not overlap.
- Record validation in `importDelegations`: harvest records are well formed by construction; timestamps and metrics are part of a record's opaque content.
- Pre-migration databases without policy or superseded columns, and unreadable databases.
- Symbolic links, hard links, permissions and I/O failures in `pull`; `snapshot` and the rest of the build client.
- ArtifactPull.Worktree.Pull: assumes the 128-bit random temporary names are no component of a requested path.
- HtmlTables.Splice: says what is cut from the page, not the Markdown each part becomes.
- Matching.SourceIsLawful: case folding and word characters are ASCII.
- JudgeRetry.EveryCallFits: takes the built prompt to be no longer than the sized parts; the prompt and context builders are not modelled.
