# RisingLight optimiser instrumentation, modelled in Dafny

RisingLight's planner (`src/planner/optimizer.rs`) runs an `egg` e-graph optimiser in three stages. This fork adds instrumentation to it: after the last run of each stage it saves a statistics row, the e-graph's class details, the rules applied in each runner iteration, the rule totals ranked by applications, the merge counters and the chosen expression. At the end it writes a total-cost table. A set of Python scripts under `src/planner/script/` then reads those files, and the optimiser's printed trace. The scripts extract rows, keep the last rows of tables, sort and pivot the rule files, select the most applied rules, project class columns and join initial and final costs per query.

This project models that data handling, one Dafny module per source file:

| module | source |
|---|---|
| `TraceExtracter` | `script/extracter.py`: the trace-line accumulator, an imperative loop over eight variables, proved against a left fold `Run` |
| `EgraphStats`, `RuleStats`, `OptimizerOutput`, `Optimizer` | `optimizer.rs`: class statistics, relational count, rule totals and ranking, rule-application rows, derived file names, quote escaping, total-cost table, and the save gating of `optimize_stage` and `optimize` |
| `Ranking` | the descending sort by total shared by `optimizer.rs` and `rule_mostpop.py` |
| `TailWindows` | `extractor.py`, `expr_lines_extracter.py`, `egg-merges.py`: last-four windows, output names, merge-histogram validation and series |
| `NaturalOrder`, `RuleFileNames`, `RuleHeatmap` | `rulesInfo_histogram.py`: natural sort key, glob pattern, `stage_(\d+)_iter_(\d+)` search, loading loop, `None`-filtered pivot, folder filter |
| `RuleMostPop` | `rule_mostpop.py`: top-five selection per stage and folder filter |
| `ClassesExtractor` | `classes_data_extractor.py`: the two-column projection per stage |
| `GlobalQuery` | `global_query.py`: `calculate_cost_differences` (query numbers from file names, cost ceiling and NaN coercion, ascending join, difference and percentage) |
| `Text`, `Wrappers` | shared scanning, decimal rendering and parsing, `list.index`, filtering; `Option` and `Result` |

Outside effects become values:
- A directory listing is a sequence of names.
- A set of readable files is a map from path to parsed rows. A missing file is a path the map lacks.
- An `egg` run is a function from the starting expression to what the run yields.
- A save is a `Write` record naming the file and the data.

Several lemmas connect components: a script reads the file another component writes. They show three things about the code as written:
- The all-stages glob of `rulesInfo_histogram.py`, `stage_*_iter_*_rules_application.csv`, never matches the optimiser's `stage_<n>_rules_application.csv` (`RuleFileNames.OptimizerRuleFileNotMatched`, `RuleHeatmap.OptimizerRuleFilesNotLoaded`).
- `optimize` never fills `stage_costs`, so its total-cost table has no `Stage_3_Cost` column. `calculate_cost_differences` therefore finds no final cost and reports nothing for those files (`GlobalQuery.OptimizerTablesGiveNoFinalCost`, `GlobalQuery.NoFinalNoResults`).
- `rule_mostpop.py` and `rulesInfo_histogram.py` look under `<text before the first _>_data`. That is the optimiser's folder only when the stem has no `_` (`RuleMostPop.ReadsOptimizerStats`, `RuleHeatmap.OptimizerFolderVisited`).

The model keeps the behaviour as written in each case.

The only `q15` special case in the code is the choice of the appending writer for rule statistics (`Optimizer.RuleStatsMode`).

## Model

| member | source | states |
|---|---|---|
| TraceExtracter.AlternativeAt | src/planner/script/extracter.py:13 | the alternative returned opens a match at the position; with none, none of the cost alternatives opens one |
| TraceExtracter.FirstMatch | src/planner/script/extracter.py:40 | the leftmost position at or after the start where the tag matches, and no match before it; None exactly when the tag matches nowhere |
| TraceExtracter.CaptureAt | src/planner/script/extracter.py:42 | the group captured at a match is the non-empty run of the tag's class (`\d` or `[\d.]`) that starts right after one of the tag's prefixes at the match, and it is maximal: the character after it, if any, is outside the class |
| TraceExtracter.OnlyAlternativeAt | src/planner/script/extracter.py:13 | when no alternative begins another, the alternative that opens at a position is the one the match uses |
| TraceExtracter.FirstMatchIs | src/planner/script/extracter.py:40 | the leftmost match is at `j` when the tag matches at `j` and nowhere before it |
| TraceExtracter.SearchOfTaggedLine | src/planner/script/extracter.py:40-56 | on a line `w + p + d + z`, with `p` an alternative, `d` a run of the class that `z` does not continue and no match inside `w`, `search` captures exactly `d` |
| TraceExtracter.TaggedLineOpens | src/planner/script/extracter.py:13-20 | in `w + p + d + z`, the alternative `p` opens a match right after `w` |
| TraceExtracter.TaggedLineCapture | src/planner/script/extracter.py:42 | the group captured after `p` in `w + p + d + z` is exactly `d` |
| TraceExtracter.CostPrefixesFree | src/planner/script/extracter.py:13 | none of `Custo inicial: `, `Custo atual: `, `Custo final: ` begins another |
| TraceExtracter.TagsArePrefixFree | src/planner/script/extracter.py:13-20 | no alternative of any of the eight tags begins another, so the three cost prefixes never compete |
| TraceExtracter.Search | src/planner/script/extracter.py:13-20 | a found group is a non-empty run of the tag's character class |
| TraceExtracter.SearchCapturesAtFirstMatch | src/planner/script/extracter.py:40-56 | `search` captures at the leftmost matching position and finds nothing exactly when the tag matches nowhere |
| TraceExtracter.RowOf | src/planner/script/extracter.py:79 | the appended row has eight fields, as many as the header |
| TraceExtracter.SearchEach | src/planner/script/extracter.py:40-56 | one result per tag, and every captured value is non-empty |
| TraceExtracter.Captures | src/planner/script/extracter.py:37-56 | every capture of a line is None or a non-empty string |
| TraceExtracter.CapturesAreTheSearches | src/planner/script/extracter.py:37-56 | each field of a line's captures is the `search` of its own tag on the stripped line |
| TraceExtracter.SearchEachAt | src/planner/script/extracter.py:40-56 | the k-th result is the search for the k-th tag |
| TraceExtracter.Advance | src/planner/script/extracter.py:40-88 | after a line the variables are never left complete; the rows only grow, by at most one, keeping the earlier rows |
| TraceExtracter.Update | src/planner/script/extracter.py:40-74 | defined here as the variable updates of one line; `StageLineClearsOnlyIteration` and `UntaggedLineChangesNothing` state what a stage line and an untagged line do to them, `RunValuesNonEmpty` that every value held is non-empty |
| TraceExtracter.RunOver | src/planner/script/extracter.py:36-88 | defined here as the loop over the capture records; `RunSnoc` states it one line at a time, `RowsAtMostIterationLines` and `RunRowsHaveEightFields` bound and shape its rows |
| TraceExtracter.Run | src/planner/script/extracter.py:36 | defined here as the loop over the file's lines; `ExtractRows` ties the method to it, `StageIsKeptBetweenStageLines` states that the stage persists until the next stage line |
| TraceExtracter.Scanned | src/planner/script/extracter.py:36-37 | one capture record per line, all values non-empty |
| TraceExtracter.RunSnoc | src/planner/script/extracter.py:36 | the state after one more line is one loop step from the state before it |
| TraceExtracter.SearchLine | src/planner/script/extracter.py:37-56 | the stripped line's eight searches, in the script's order, are the line's captures |
| TraceExtracter.AbsorbLine | src/planner/script/extracter.py:41-88 | the assignments and the completeness test of one loop iteration are one step of the fold |
| TraceExtracter.ExtractRows | src/planner/script/extracter.py:23-94 | the output is the header followed by the rows of the fold over the lines; every row has eight fields |
| TraceExtracter.RunValuesNonEmpty | src/planner/script/extracter.py:42-74 | every variable the loop holds is None or a non-empty string |
| TraceExtracter.CompleteIffAllSet | src/planner/script/extracter.py:77 | for non-empty values the truthiness test holds exactly when all eight variables are set |
| TraceExtracter.AdvanceAppendsIffAllSet | src/planner/script/extracter.py:77-79 | a row is appended exactly when stage, iteration and the six metrics are all set after the line's assignments, and it is appended after the earlier rows |
| TraceExtracter.AdvanceClearsAllButStage | src/planner/script/extracter.py:81-88 | after an append every variable but the stage is None and the stage is kept |
| TraceExtracter.StageLineClearsOnlyIteration | src/planner/script/extracter.py:40-43 | a stage-only line sets the stage, clears the iteration, keeps all pending metrics and appends nothing |
| TraceExtracter.UntaggedLineChangesNothing | src/planner/script/extracter.py:51-74 | a line matching no tag leaves variables and rows unchanged |
| TraceExtracter.EveryTagLineAppends | src/planner/script/extracter.py:40-88 | a line carrying every tag appends exactly its own eight captures and keeps only its stage |
| TraceExtracter.RowsAtMostIterationLines | src/planner/script/extracter.py:46-48 | rows emitted plus a pending iteration never exceed the number of lines matching `Iteração: (\d+)` |
| TraceExtracter.RunRowsHaveEightFields | src/planner/script/extracter.py:79 | every emitted row has eight fields; no lines leave the state as it was |
| TraceExtracter.StageIsKeptBetweenStageLines | src/planner/script/extracter.py:40-43 | without stage lines the stage is kept and every row appended meanwhile carries it |
| EgraphStats.NodeCounts | src/planner/optimizer.rs:99 | one count per class, each the number of the class's nodes |
| EgraphStats.MinCountIsMinimum | src/planner/optimizer.rs:105-113 | `min_nodes` is at most every count and is one of them when there are counts that fit a usize; with no classes it stays `usize::MAX` |
| EgraphStats.MaxCountIsMaximum | src/planner/optimizer.rs:106-116 | `max_nodes` is at least every count and one of them; with no classes it stays 0 |
| EgraphStats.MinCount | src/planner/optimizer.rs:105-113 | defined here as the running minimum; `MinCountIsMinimum` states that it is the least count, `VisitAndEnumerate` ties the loop to it |
| EgraphStats.MaxCount | src/planner/optimizer.rs:106-116 | defined here as the running maximum; `MaxCountIsMaximum` states that it is the largest count, `VisitAndEnumerate` ties the loop to it |
| EgraphStats.Infos | src/planner/optimizer.rs:88-102 | entry k records class k's position, node count and nodes |
| EgraphStats.VisitAndEnumerate | src/planner/optimizer.rs:84-126 | `classes_eq` is the number of classes; the class records are `Infos`; min and max are the folds of the node counts |
| EgraphStats.StatisticsBoundNodeCounts | src/planner/optimizer.rs:105-118 | min is at most and max at least every node count; both are attained with classes; without classes they are `usize::MAX` and 0 |
| EgraphStats.Head | src/planner/optimizer.rs:192 | `split('(').next()` is a prefix without `(` that ends at the first `(` or at the end |
| EgraphStats.HeadOfFormattedNode | src/planner/optimizer.rs:192 | a node formatted as `Name(...)` has head `Name` |
| EgraphStats.DetailExpr | src/planner/optimizer.rs:183-201 | the counter loop returns the number of nodes whose head is one of the twelve relational names |
| EgraphStats.CountRelationalAtMostNodes | src/planner/optimizer.rs:190-197 | the relational count never exceeds the number of nodes |
| EgraphStats.CountRelationalAllIff | src/planner/optimizer.rs:190-197 | the count equals the node count exactly when every node is relational |
| EgraphStats.CountRelationalNoneIff | src/planner/optimizer.rs:190-197 | the count is zero exactly when no node is relational |
| EgraphStats.CountRelationalAppend | src/planner/optimizer.rs:190-197 | the count of a concatenation is the sum of the counts |
| EgraphStats.CountRelational | src/planner/optimizer.rs:190-197 | defined here as the number of relational nodes; `DetailExpr` ties the counter loop to it, `CountRelationalAtMostNodes`, `CountRelationalAllIff` and `CountRelationalNoneIff` bound it |
| EgraphStats.ClassDetailsRow | src/planner/optimizer.rs:248-253 | a class row has as many fields as the four-column header |
| EgraphStats.ClassDetailsTable | src/planner/optimizer.rs:244-254 | the table is the header and then one row per class, in order |
| EgraphStats.ClassDetailsReadBack | src/planner/optimizer.rs:247-253 | reading back `Class_ID` and `Node_Count` gives each class's position and node count |
| Ranking.RulesOfSnoc | src/planner/optimizer.rs:406 | appending an entry adds its rule to the rules listed |
| Ranking.RulesOfSameEntries | src/planner/optimizer.rs:406-407 | sequences with the same entries list the same rules |
| Ranking.Insert | src/planner/optimizer.rs:407 | insertion adds exactly the new entry to the multiset |
| Ranking.InsertKeepsOrder | src/planner/optimizer.rs:407 | insertion keeps a non-increasing sequence non-increasing |
| Ranking.InsertKeepsDistinct | src/planner/optimizer.rs:406-407 | inserting a new rule keeps the rules distinct |
| Ranking.SortDesc | src/planner/optimizer.rs:407 | the sort by total, descending, is a permutation of its input |
| Ranking.SortDescSorts | src/planner/optimizer.rs:407 | the sorted sequence is non-increasing, keeps length and entries, and keeps distinct rules distinct |
| Ranking.PrefixDominatesRest | src/planner/script/rule_mostpop.py:23 | in a non-increasing sequence every entry of a prefix is at least every entry after it |
| RuleStats.TallyIsTotals | src/planner/optimizer.rs:394-403 | the map has a key for exactly the applied rules, each mapped to the sum of its counts |
| RuleStats.Tally | src/planner/optimizer.rs:394-403 | defined here as the map fold; `TallyIsTotals` states each key's sum, `AggregateApplications` ties the nested loop to it |
| RuleStats.TotalOfAbsent | src/planner/optimizer.rs:401 | a rule never applied has total 0 |
| RuleStats.TotalOfAppend | src/planner/optimizer.rs:397-403 | totals add up over a concatenation of iterations |
| RuleStats.AddApplied | src/planner/optimizer.rs:398-402 | the inner loop extends the tally by one iteration's applied entries |
| RuleStats.AggregateApplications | src/planner/optimizer.rs:394-403 | the nested loop yields the tally of every applied entry of every iteration |
| RuleStats.CollectEntries | src/planner/optimizer.rs:406 | `into_iter().collect()` lists every key of the map once, with its value |
| RuleStats.RuleStatistics | src/planner/optimizer.rs:394-407 | each applied rule appears exactly once with the sum of its applications, in non-increasing order of that sum |
| RuleStats.RuleStatsRows | src/planner/optimizer.rs:422-429 | row k is the stage, the k-th rule, its total and rank k+1 |
| RuleStats.RuleStatsRanked | src/planner/optimizer.rs:422-428 | read back, the ranks are 1..n in row order and the totals are non-increasing |
| RuleStats.RuleStatsFile | src/planner/optimizer.rs:410-429 | overwriting gives header and rows; appending keeps the existing lines and adds the header only to an empty file (lines 580-601) |
| RuleStats.AppliedRows | src/planner/optimizer.rs:345-354 | one row per applied entry |
| RuleStats.ExpandAllSnoc | src/planner/optimizer.rs:339-367 | the rows of one more iteration are appended after the earlier ones |
| RuleStats.AppliedRowsSnoc | src/planner/optimizer.rs:345-354 | one more applied entry appends its row |
| RuleStats.AppendIterationRows | src/planner/optimizer.rs:339-366 | the loop body appends the iteration's rows, or the single `"None","0"` row |
| RuleStats.RulesApplicationRows | src/planner/optimizer.rs:329-367 | the row loop writes exactly the expansion of all iterations under the six-column header |
| RuleStats.AppliedRowsEntries | src/planner/optimizer.rs:346-353 | row k carries the stage, the iteration index, the counts and entry k's rule and applications |
| RuleStats.IterationRowsShape | src/planner/optimizer.rs:339-366 | an iteration yields one row per applied rule, or exactly one `None`,`0` row when nothing was applied |
| RuleStats.ExpandAllShape | src/planner/optimizer.rs:339-366 | there are as many rows as applied entries plus empty iterations; each has six fields, the stage, and an `Internal_Iteration` that reads back as an iteration's position |
| RuleStats.ExpandAll | src/planner/optimizer.rs:339-366 | defined here as the rows of every iteration in order; `RulesApplicationRows` ties the row loop to it, `ExpandAllShape` and `RulesDataSumsToTotals` state its shape and totals |
| RuleStats.ColumnTotalAppend | src/planner/optimizer.rs:339-366 | column sums add up over concatenated rows |
| RuleStats.AppliedRowsTotal | src/planner/optimizer.rs:345-354 | the `Applications` column of an iteration's rows sums to the rule's total in it |
| RuleStats.RulesDataSumsToTotals | src/planner/optimizer.rs:339-406 | for any rule other than `None`, the rule-application rows sum to the rule's total in the statistics |
| OptimizerOutput.Split | src/planner/optimizer.rs:218 | at least one piece, none containing the separator |
| OptimizerOutput.FileName | src/planner/optimizer.rs:210-212 | `Path::file_name` is a non-empty last component without `/`, never `.` or `..` |
| OptimizerOutput.LastComponentIsPiece | src/planner/optimizer.rs:210-212 | every path component is a non-empty piece without `/` other than `.` |
| OptimizerOutput.LastIndexOf | src/planner/optimizer.rs:269 | the position of the last occurrence, with none after it, or the length when absent |
| OptimizerOutput.FileStem | src/planner/optimizer.rs:269 | the stem is a prefix of the name: the whole name, or the text before the last `.` with something before it |
| OptimizerOutput.QueryDir | src/planner/optimizer.rs:209-222 | the query directory holds no `_` or `/`, is empty without a file name, and is a prefix of the file name; the `unknown_query` branch is unreachable |
| OptimizerOutput.PathJoin | src/planner/optimizer.rs:225 | `Path::join` ends with the piece; an absolute piece replaces the base; otherwise one `/` goes between them |
| OptimizerOutput.PathJoinTwice | src/planner/optimizer.rs:225-231 | joining a directory and then a file name gives `dir/sub/file`, or `dir/file` for an empty directory piece |
| OptimizerOutput.IndexOfAppend | src/planner/optimizer.rs:218 | the first `c` of a concatenation lies in the left part if present there, else in the right |
| OptimizerOutput.SplitSnoc | src/planner/optimizer.rs:210-212 | splitting `a/b` with `b` free of `/` gives `a`'s pieces and then `b` |
| OptimizerOutput.FileNameUnder | src/planner/optimizer.rs:210-212 | the file name of `dir/name` is `name` |
| OptimizerOutput.TrimEndMatchesSuffix | src/planner/optimizer.rs:214 | trimming a suffix from `x` followed by that suffix is trimming it from `x` |
| OptimizerOutput.BeforeFirstAppend | src/planner/optimizer.rs:218 | the text before the first `c` of a concatenation comes from the left part when it holds a `c` |
| OptimizerOutput.QueryDataNames | src/planner/optimizer.rs:643-645 | for `query_data/<stem>_data.csv` the file stem is `<stem>_data` and the query directory is the stem up to its first `_` |
| OptimizerOutput.QueryDataFileName | src/planner/optimizer.rs:645 | the file name of the optimiser's output file is `<stem>_data.csv` |
| OptimizerOutput.QueryDataStem | src/planner/optimizer.rs:310 | the stem of `<stem>_data.csv` is `<stem>_data` |
| OptimizerOutput.QueryDataDir | src/planner/optimizer.rs:214-218 | trimming `.csv` and cutting at `_` gives the stem up to its first `_` |
| OptimizerOutput.ReadQuotedEscape | src/planner/optimizer.rs:539-540 | a CSV reader reads the doubled-quote text back as the original, for any quotes it holds |
| OptimizerOutput.EscapeQuotes | src/planner/optimizer.rs:539-540 | defined here as doubling every `"`; `ReadQuotedEscape` proves a CSV reader reads it back as the original |
| OptimizerOutput.ExpressionLineReadBack | src/planner/optimizer.rs:539-540 | the line `stage,"escaped"` reads back as the stage and the original expression |
| OptimizerOutput.TotalCostHeader | src/planner/optimizer.rs:467-471 | `Query`, then `Stage_k_Cost` for k from 1 to n, then `Total_Cost`: n+2 names |
| OptimizerOutput.TotalCostRow | src/planner/optimizer.rs:478-482 | the query name, each stage cost in order, then the total: n+2 fields |
| OptimizerOutput.StageCostNameInjective | src/planner/optimizer.rs:469 | different stages get different column names |
| OptimizerOutput.TotalCostTableAligned | src/planner/optimizer.rs:467-485 | header and row have equal length and each stage's cost sits under its own column; `Stage_3_Cost` is present exactly when there are at least three stage costs |
| Optimizer.RuleStatsMode | src/planner/optimizer.rs:773-783 | the appending writer is chosen exactly for stems starting with `q15` |
| Optimizer.SaveStageData | src/planner/optimizer.rs:737-770 | the statistics row, class details, rule rows, merge counters and expression of the last run are saved, in that order |
| Optimizer.SaveRuleStatistics | src/planner/optimizer.rs:772-783 | the rule statistics of the run are saved with the writer the stem selects |
| Optimizer.SaveStage | src/planner/optimizer.rs:735-784 | the six saves made after the last run |
| Optimizer.OptimizeStage | src/planner/optimizer.rs:700-786 | each run starts from the previous best expression; the final expression and cost are the last run's; only the last run's data is saved; with no runs nothing changes or is saved |
| Optimizer.SaveStageZero | src/planner/optimizer.rs:652-666 | the stage-0 saves of the expression as given, with cost `f32::MAX` |
| Optimizer.SaveTotalCosts | src/planner/optimizer.rs:449-485 | with no stage costs the table is `Query,Total_Cost` over the query name and 0 |
| Optimizer.Optimize | src/planner/optimizer.rs:626-694 | saves for stage 0, then stages 1-3 with 2, 4 and 3 runs, each from the previous stage's result, all under `query_data/<stem>_data.csv`, then the total-cost table |
| Optimizer.PathStemHasNoSlash | src/planner/optimizer.rs:643 | a file stem never contains `/` |
| Optimizer.ClassDetailsSavePath | src/planner/optimizer.rs:225-231 | class details go to `data_classes/<stem up to first _>/stage_<s>_classes.csv` |
| Optimizer.ExpressionsSavePath | src/planner/optimizer.rs:518-522 | expressions go to `expressions/<stem up to first _>/expressions.csv` |
| Optimizer.RulesDataSavePath | src/planner/optimizer.rs:310-317 | rule rows go to `rules_data/<stem>_data/stage_<s>_rules_application.csv` |
| Optimizer.RuleStatsSavePath | src/planner/optimizer.rs:384-391 | rule statistics go to `rules_stats/<stem>_data/stage_<s>_rule_stats.csv` |
| Optimizer.EggMergesSavePath | src/planner/optimizer.rs:269-273 | merge counters go to `egg-merges/<stem>_data/egg_merges.csv` |
| Text.Strip | src/planner/script/extracter.py:37 | the result is the slice `s[a..b]` with only whitespace before `a` and after `b`, and neither end of it is whitespace; a line with no outer whitespace is left as it is |
| Text.RunLengthOf | src/planner/script/extracter.py:42 | a run of the class that no class character follows is exactly what a greedy `+` takes |
| Text.TrimEndMatches | src/planner/optimizer.rs:214 | the result is a prefix that no longer ends with the suffix, and only a suffix was removed |
| Text.BeforeFirst | src/planner/optimizer.rs:218 | the text before the first `c`: a prefix without `c`, ending at a `c` or the end |
| Text.ParseNatToString | src/planner/optimizer.rs:427 | a rendered count reads back as itself |
| Text.NatToStringInjective | src/planner/optimizer.rs:469 | two numbers render alike only if equal |
| Text.FirstIndex | src/planner/script/classes_data_extractor.py:30-31 | `list.index`: the first position holding the value, None exactly when absent |
| Text.FilterAppend | src/planner/script/rulesInfo_histogram.py:59 | filtering distributes over concatenation, so kept rows keep their order |
| TailWindows.Tail | src/planner/script/extractor.py:25 | `s[-n:]` is the last min(n, length) elements, in order |
| TailWindows.TailSnoc | src/planner/script/expr_lines_extracter.py:15 | the window after appending depends only on the previous window |
| TailWindows.BaseName | src/planner/script/extractor.py:11 | the base name has no `/`, ends the path and follows its last `/` |
| TailWindows.SplitextRoot | src/planner/script/extractor.py:11 | the root is the name, or the text before the last `.` when something other than dots precedes it |
| TailWindows.BaseNameUnder | src/planner/script/extractor.py:11 | the base name of `dir/name` is `name` |
| TailWindows.SplitextRootOfDataCsv | src/planner/script/extractor.py:11 | the root of `<stem>_data.csv` is `<stem>_data` |
| TailWindows.FilteredPathOfQueryData | src/planner/script/extractor.py:11-13 | the optimiser's output file is copied to `filtered_query_data/<stem>_data_filtered.csv` |
| TailWindows.ExtractLastFour | src/planner/script/extractor.py:4-31 | a missing input writes nothing; a file without a header raises; otherwise the header and the last min(4, n) data rows in order |
| TailWindows.ExpressionsFeedFilter | src/planner/script/expr_lines_extracter.py:5 | the expressions file the optimiser appends to is the one the filter reads for the query |
| TailWindows.FilterLastFourRows | src/planner/script/expr_lines_extracter.py:4-17 | a missing input returns before any directory is made; an empty file raises exactly when present, after its output directory is made; otherwise the header and the last min(4, n) rows, columns unchanged |
| TailWindows.UntilRaise | src/planner/script/expr_lines_extracter.py:21-22 | an uncaught exception ends a loop: the outcomes kept are a prefix of all of them, none before the last one raised, and a shorter prefix ends with the outcome that raised (used for this loop and the folder loop of egg-merges.py:93-96) |
| TailWindows.FilterEach | src/planner/script/expr_lines_extracter.py:19-22 | outcome k is the filter of query k, in order; the loop stops right after the first query whose file is empty, since the exception leaves `main` |
| TailWindows.FilterEachStopsAtEmpty | src/planner/script/expr_lines_extracter.py:13-22 | when the loop stops early, the last query handled has an empty expressions file |
| TailWindows.FilterEachComplete | src/planner/script/expr_lines_extracter.py:21-22 | with no empty expressions file among the queries, every query is handled |
| TailWindows.FilterEachDistinctOutputs | src/planner/script/expr_lines_extracter.py:5-22 | distinct queries without `/` write distinct filtered files |
| TailWindows.FilteredPathInjective | src/planner/script/expr_lines_extracter.py:6-7 | two queries share a filtered file only when they are the same query |
| TailWindows.ExpressionQueriesShape | src/planner/script/expr_lines_extracter.py:20 | the five queries are distinct, non-empty and free of `/` |
| TailWindows.FilterMainOutcomes | src/planner/script/expr_lines_extracter.py:19-22 | `main` handles q2, q5, q7, q8, q9 in that order, all five unless one file is empty, and each filtered query writes its own file |
| TailWindows.FilteredPathOfQuery | src/planner/script/expr_lines_extracter.py:6-7 | the output is `expressions/filtered/<query>/expressions_filtered.csv` |
| TailWindows.MergeOutputFolderOfDataFolder | src/planner/script/egg-merges.py:9 | for a stem in which `_data` does not occur, removing every `_data` from `<stem>_data` gives the stem |
| TailWindows.EggMergesFeedHistogram | src/planner/script/egg-merges.py:10 | the merges file the optimiser appends to is the one read for folder `<stem>_data` |
| TailWindows.MergeQueryFolders | src/planner/script/egg-merges.py:93-95 | the folders the loop visits, in listing order, are exactly the listed entries starting with `q`; how far the loop gets is `MergeAll` |
| TailWindows.ParseInt | src/planner/script/egg-merges.py:41-44 | `int()` succeeds exactly on an optionally signed digit string |
| TailWindows.ParseIntOfNat | src/planner/script/egg-merges.py:41-44 | the counters the optimiser writes read back as themselves |
| TailWindows.LongRows | src/planner/script/egg-merges.py:38-40 | every row kept has at least four fields |
| TailWindows.ReadFromAppendRow | src/planner/script/egg-merges.py:41-44 | appending a row's four fields keeps each series aligned with its column |
| TailWindows.SeriesShape | src/planner/script/egg-merges.py:37-44 | the series exist exactly when every row not skipped converts; each series then has one entry per such row, from its own column |
| TailWindows.SeriesOfNoneStays | src/planner/script/egg-merges.py:41-44 | once a row has raised, later rows do not matter |
| TailWindows.CollectSeries | src/planner/script/egg-merges.py:32-44 | the append loop with `continue` yields the series of the last four rows |
| TailWindows.MergeHistogramPlots | src/planner/script/egg-merges.py:14-44 | a plot needs a header of at least four fields and at least four data rows; its four series have equal length at most four, read from the last four rows |
| TailWindows.CreateMergeHistogram | src/planner/script/egg-merges.py:7-44 | the graph directory is made first; the outcome is the histogram's validation and series |
| TailWindows.MergeHistogram | src/planner/script/egg-merges.py:7-44 | defined here as the outcome of one folder (not found, invalid header, too few rows, an `int()` that raises, or the four series); `MergeHistogramPlots` states when it plots and what, `CreateMergeHistogram` ties the method to it |
| TailWindows.MergeAll | src/planner/script/egg-merges.py:93-101 | outcome k is the histogram of the k-th `q` folder; the loop stops right after the first folder whose `int()` raises, since the `ValueError` leaves `process_all_queries` and `main` |
| TailWindows.MergeAllStopsAtRaise | src/planner/script/egg-merges.py:41-44 | when the loop stops early, the last folder handled is a listed `q` entry whose rows hold a field `int()` rejects |
| TailWindows.MergeAllComplete | src/planner/script/egg-merges.py:93-96 | with no such folder among the `q` entries, every `q` folder is handled |
| NaturalOrder.RunLengthAppend | src/planner/script/rulesInfo_histogram.py:26 | a run that ends inside a string is not lengthened by what follows |
| NaturalOrder.NaturalKeyAppend | src/planner/script/rulesInfo_histogram.py:26 | text ending in a separator is tokenised apart from what follows |
| NaturalOrder.NaturalKeyOfNumber | src/planner/script/rulesInfo_histogram.py:26 | a number followed by a non-digit becomes one integer token |
| NaturalOrder.NaturalKey | src/planner/script/rulesInfo_histogram.py:26 | defined here as the digit-run tokenisation; `NaturalKeyOfNumber`, `NaturalKeyAppend` and `NaturalKeyAround` state how runs become tokens, `NumbersOrderNumerically` that numbers in the same place compare by value |
| NaturalOrder.StringLessIrreflexive | src/planner/script/rulesInfo_histogram.py:26 | no string is less than itself |
| NaturalOrder.StringLessAsymmetric | src/planner/script/rulesInfo_histogram.py:26 | string comparison is asymmetric |
| NaturalOrder.StringLessTransitive | src/planner/script/rulesInfo_histogram.py:26 | string comparison is transitive |
| NaturalOrder.TokenLessAsymmetric | src/planner/script/rulesInfo_histogram.py:26 | token comparison is asymmetric |
| NaturalOrder.TokenLessTransitive | src/planner/script/rulesInfo_histogram.py:26 | token comparison is transitive |
| NaturalOrder.KeyLessAsymmetric | src/planner/script/rulesInfo_histogram.py:26 | key comparison is asymmetric |
| NaturalOrder.KeyLessTransitive | src/planner/script/rulesInfo_histogram.py:26 | key comparison is transitive |
| NaturalOrder.KeyLessCommonPrefix | src/planner/script/rulesInfo_histogram.py:26 | keys sharing a prefix compare as their remainders |
| NaturalOrder.KeyLessIrreflexive | src/planner/script/rulesInfo_histogram.py:26 | no key is less than itself |
| NaturalOrder.NaturalKeyAround | src/planner/script/rulesInfo_histogram.py:26 | the key of text around a number is the key of the text before, the number, and the key of the text after |
| NaturalOrder.KeyLessFirstNumber | src/planner/script/rulesInfo_histogram.py:26 | keys differing only in their first number compare as the numbers |
| NaturalOrder.NumbersOrderNumerically | src/planner/script/rulesInfo_histogram.py:26 | paths differing only in one number are ordered by its value, so `iter_9` sorts before `iter_10` |
| NaturalOrder.InsertBy | src/planner/script/rulesInfo_histogram.py:26 | insertion adds exactly the new element |
| NaturalOrder.InsertAtFrontSorted | src/planner/script/rulesInfo_histogram.py:26 | putting a smaller element in front keeps the order |
| NaturalOrder.ConsSorted | src/planner/script/rulesInfo_histogram.py:26 | an element not greater than the rest can head a sorted remainder |
| NaturalOrder.InsertBySorted | src/planner/script/rulesInfo_histogram.py:26 | insertion keeps a sorted sequence sorted |
| NaturalOrder.SortBy | src/planner/script/rulesInfo_histogram.py:26 | the stable sort is a permutation of its input |
| NaturalOrder.SortBySorts | src/planner/script/rulesInfo_histogram.py:26 | under a strict order the result is sorted |
| NaturalOrder.PathLessIsStrictOrder | src/planner/script/rulesInfo_histogram.py:26 | the natural-key comparison of paths is a strict order |
| NaturalOrder.SortByKey | src/planner/script/rulesInfo_histogram.py:26 | the sorted files are a permutation of the found files |
| NaturalOrder.SortByKeySorts | src/planner/script/rulesInfo_histogram.py:26 | no path has a smaller key than a path before it; the length and the paths are kept (the order among equal keys is not stated) |
| RuleFileNames.StagePart | src/planner/script/rulesInfo_histogram.py:18 | no stage or an empty one selects `*`; any other stage is used as given |
| RuleFileNames.GlobLiteral | src/planner/script/rulesInfo_histogram.py:19 | a literal piece of a pattern matches itself |
| RuleFileNames.GlobStar | src/planner/script/rulesInfo_histogram.py:19 | `*` matches any text |
| RuleFileNames.GlobTwoStars | src/planner/script/rulesInfo_histogram.py:18-19 | a two-star pattern matches its literal pieces with any text in place of the stars |
| RuleFileNames.IterFileMatches | src/planner/script/rulesInfo_histogram.py:18-19 | every `stage_<a>_iter_<b>_rules_application.csv` matches the all-stages pattern |
| RuleFileNames.GlobLiteralPrefix | src/planner/script/rulesInfo_histogram.py:19 | a literal front of the pattern is matched by the same front of the name |
| RuleFileNames.GlobStarLiteral | src/planner/script/rulesInfo_histogram.py:19 | after `*`, a literal piece occurs in the name and the rest of the pattern matches what follows |
| RuleFileNames.MiddlePieceOccurs | src/planner/script/rulesInfo_histogram.py:19 | in a name matching `*p2*p3`, `p2` occurs with room for `p3` after it |
| RuleFileNames.GlobStarLiteralLength | src/planner/script/rulesInfo_histogram.py:19 | a name matching `*lit` is at least as long as `lit` |
| RuleFileNames.NoMatchWithoutMiddle | src/planner/script/rulesInfo_histogram.py:19 | a name lacking the middle piece's first character between the outer pieces does not match |
| RuleFileNames.OptimizerRuleFileNotMatched | src/planner/script/rulesInfo_histogram.py:18-19 | the optimiser's `stage_<n>_rules_application.csv` never matches the all-stages pattern |
| RuleFileNames.StageIterAt | src/planner/script/rulesInfo_histogram.py:33 | both captures of a match are non-empty digit strings |
| RuleFileNames.FindStageIter | src/planner/script/rulesInfo_histogram.py:33 | the first match position, with no match before it; None exactly when there is none |
| RuleFileNames.FirstMatchFrom | src/planner/script/rulesInfo_histogram.py:33 | the search from i stops at k when k matches and nothing before it does |
| RuleFileNames.FirstMatchAt | src/planner/script/rulesInfo_histogram.py:33 | the first match is at k when k matches and nothing before it does |
| RuleFileNames.DigitRunOf | src/planner/script/rulesInfo_histogram.py:33 | a greedy `\d+` takes exactly a digit string that no digit follows |
| RuleFileNames.StageIterAtShape | src/planner/script/rulesInfo_histogram.py:33 | a match is `stage_`, a maximal digit run, `_iter_` and a maximal digit run |
| RuleFileNames.StageIterFromPieces | src/planner/script/rulesInfo_histogram.py:33 | conversely, those pieces form a match with those captures |
| RuleFileNames.StageIterOfDigits | src/planner/script/rulesInfo_histogram.py:33 | `stage_<d1>_iter_<d2>` followed by a non-digit matches with captures `d1` and `d2` |
| RuleFileNames.NoMatchInDirectory | src/planner/script/rulesInfo_histogram.py:33 | a directory without `stage_` holds no match before its `/` |
| RuleFileNames.IterFileMatchAt | src/planner/script/rulesInfo_histogram.py:33 | an iteration file's path matches where its file name starts |
| RuleFileNames.NoMatchBeforeIterFile | src/planner/script/rulesInfo_histogram.py:33 | nor does it match earlier, when the directory holds no `stage_` |
| RuleFileNames.StageIterOfIterFile | src/planner/script/rulesInfo_histogram.py:33-36 | the first match of an iteration file's path yields the digits in its name |
| RuleHeatmap.RuleFilePaths | src/planner/script/rulesInfo_histogram.py:17-19 | the glob finds exactly the listed names matching the pattern, under `rules_data/<query>_data` |
| RuleHeatmap.NoMatchNoPaths | src/planner/script/rulesInfo_histogram.py:19-23 | with no matching name the glob finds nothing |
| RuleHeatmap.ExtendRows | src/planner/script/rulesInfo_histogram.py:39-41 | a new column adds the value to the end of every row |
| RuleHeatmap.TagFrame | src/planner/script/rulesInfo_histogram.py:33-41 | with a match both columns are present afterwards; without a match, or with both columns already there, the frame is unchanged; rows are kept |
| RuleHeatmap.TagIterFile | src/planner/script/rulesInfo_histogram.py:33-41 | an iteration file gets `Stage` and `External_Iteration` from its name, in that order |
| RuleHeatmap.LoadFrames | src/planner/script/rulesInfo_histogram.py:28-46 | at most one frame per path |
| RuleHeatmap.LoadFramesEmpty | src/planner/script/rulesInfo_histogram.py:28-49 | no frame is loaded exactly when no path can be read |
| RuleHeatmap.TagLoaded | src/planner/script/rulesInfo_histogram.py:33-41 | the loop body tags the frame from the file name |
| RuleHeatmap.LoadAllRuleFiles | src/planner/script/rulesInfo_histogram.py:12-52 | the loop over the sorted files returns the frames of `LoadedRuleFiles` |
| RuleHeatmap.LoadedRuleFilesNone | src/planner/script/rulesInfo_histogram.py:21-23 | None exactly when nothing matches or nothing loads (also lines 48-49); otherwise at most one frame per file |
| RuleHeatmap.OptimizerRuleFilesNotLoaded | src/planner/script/rulesInfo_histogram.py:17-23 | a folder holding only the optimiser's per-stage rule files yields None |
| RuleHeatmap.PivotSumsAreTotals | src/planner/script/rulesInfo_histogram.py:59-68 | the pivot has a cell exactly where a non-`None` record falls, holding those records' sum |
| RuleHeatmap.PivotCellIsTotal | src/planner/script/rulesInfo_histogram.py:62-68 | every cell is the sum of its non-`None` applications, 0 where there are none |
| RuleHeatmap.PivotSums | src/planner/script/rulesInfo_histogram.py:59-68 | defined here as the pivot table fold; `PivotSumsAreTotals` and `PivotCellIsTotal` tie each cell to the sum of its records, `PivotHasNoNoneColumn` drops `None` iterations |
| RuleHeatmap.PivotHasNoNoneColumn | src/planner/script/rulesInfo_histogram.py:59 | the `None` rule never becomes a column |
| RuleHeatmap.RuleDataFolders | src/planner/script/rulesInfo_histogram.py:99-100 | exactly the listed entries starting with `q` and ending with `_data` |
| RuleHeatmap.QueryName | src/planner/script/rulesInfo_histogram.py:101 | the query name is a prefix of the folder without `_` |
| RuleHeatmap.OptimizerFolderName | src/planner/script/rulesInfo_histogram.py:101 | the optimiser's folder for `<stem>_data.csv` is `<stem>_data`, whose query name is the stem up to its first `_` |
| RuleHeatmap.OptimizerFolderVisited | src/planner/script/rulesInfo_histogram.py:99-105 | that folder is visited when the stem starts with `q`, and the rule files are looked for in that folder exactly when the stem has no `_` |
| RuleMostPop.PrefixSelects | src/planner/script/rule_mostpop.py:23 | a prefix of a descending sequence is part of it, descending, and dominates the rest |
| RuleMostPop.TopFiveSelects | src/planner/script/rule_mostpop.py:23 | at most five entries, all from the input, in non-increasing order, none left out larger than one selected |
| RuleMostPop.TopFiveOfFew | src/planner/script/rule_mostpop.py:23 | five or fewer rules are all selected |
| RuleMostPop.TopFive | src/planner/script/rule_mostpop.py:23 | defined here as the first five of the descending sort; `TopFiveSelects` and `TopFiveOfFew` state which rules it selects and in what order |
| RuleMostPop.ProcessStage | src/planner/script/rule_mostpop.py:13-23 | reads the stage's own file; not found exactly when the file is missing; plots exactly when the file exists, reads and has rules, and then plots its top five |
| RuleMostPop.PlottedIsTopFive | src/planner/script/rule_mostpop.py:20-47 | a plot shows the top five of its file, between one and five rules |
| RuleMostPop.ProcessQuery | src/planner/script/rule_mostpop.py:11-23 | stages 2 and 3, in order, each from its own file: not found exactly when that file is missing, plotted exactly when it exists, reads and has rules, and a plot shows that file's top five |
| RuleMostPop.QueriesOf | src/planner/script/rule_mostpop.py:62-66 | one query per `q*_data` folder, its name before the first `_` |
| RuleMostPop.QueriesOfFolders | src/planner/script/rule_mostpop.py:62-64 | every processed query has no `_` and begins a listed `q*_data` folder |
| RuleMostPop.ReadsOptimizerStats | src/planner/script/rule_mostpop.py:13 | the path read is the optimiser's statistics file exactly when the stem has no `_` |
| RuleMostPop.StatsFileOfOptimizer | src/planner/script/rule_mostpop.py:13 | the path for `<stem>` is the optimiser's for `<stem>_data.csv` |
| ClassesExtractor.Project | src/planner/script/classes_data_extractor.py:33-34 | on success one row `[row[ci], row[ni]]` per input row, in order; otherwise the first row too short for an index |
| ClassesExtractor.ProjectRows | src/planner/script/classes_data_extractor.py:29-34 | the append loop computes the projection and stops at the first `IndexError` |
| ClassesExtractor.ExtractionFrom | src/planner/script/classes_data_extractor.py:11-42 | the run from stage i is stage i's result in front of the run from the next stage |
| ClassesExtractor.ExtractAllStagesClasses | src/planner/script/classes_data_extractor.py:7-42 | stages 0 to 3 in order: the files written and the failure that ended the run |
| ClassesExtractor.ExtractStages | src/planner/script/classes_data_extractor.py:11-42 | the stage loop writes each stage's table before the next |
| ClassesExtractor.SavedTableShape | src/planner/script/classes_data_extractor.py:26-40 | a saved table is `Class_ID,Node_Count` over each data row's two columns at the first header positions |
| ClassesExtractor.MissingFileSkipped | src/planner/script/classes_data_extractor.py:16-18 | a missing stage file writes nothing and raises nothing |
| ClassesExtractor.ExtractionComplete | src/planner/script/classes_data_extractor.py:11-42 | without a failure one table is written per stage whose file exists |
| ClassesExtractor.StageOf | src/planner/script/classes_data_extractor.py:13-40 | defined here as one stage's result: skipped when the file is missing (`MissingFileSkipped`), raised for a file without header, without either column or with a row too short, else saved; `SavedTableShape` states the table written |
| ClassesExtractor.Extraction | src/planner/script/classes_data_extractor.py:11-42 | defined here as the stage loop; `ExtractionFrom` and `ExtractStages` tie the method to it, `ExtractionComplete` and `ExtractionFromStages` state which stages are written |
| ClassesExtractor.ExtractionFromStages | src/planner/script/classes_data_extractor.py:11-42 | every table written and any failure come from one of the stages |
| ClassesExtractor.OutputPathsDistinct | src/planner/script/classes_data_extractor.py:21 | the stages write to distinct files |
| ClassesExtractor.ClassDetailsColumns | src/planner/script/classes_data_extractor.py:30-31 | in the optimiser's header `Class_ID` is column 1 and `Node_Count` column 2 |
| ClassesExtractor.ProjectsClassDetails | src/planner/script/classes_data_extractor.py:26-40 | a class-details file the optimiser wrote projects without error to ids and node counts in class order |
| ClassesExtractor.ClassDetailsRowsProject | src/planner/script/classes_data_extractor.py:33-34 | every class row has both columns, holding the class's id and node count |
| ClassesExtractor.ReadsOptimizerClasses | src/planner/script/classes_data_extractor.py:13 | the optimiser's class details for `<stem>_data.csv` are the file read for the stem up to its first `_` |
| GlobalQuery.Globbed | src/planner/script/global_query.py:23 | at most as many paths as listed names |
| GlobalQuery.GlobbedPaths | src/planner/script/global_query.py:23 | the glob finds exactly the listed names matching the pattern, under the directory (also line 73) |
| GlobalQuery.QueryDigitsAt | src/planner/script/global_query.py:29 | a match is `q`, a non-empty digit run and `_` |
| GlobalQuery.FindQueryDigits | src/planner/script/global_query.py:29 | the first match position, with no match before it |
| GlobalQuery.QueryNumber | src/planner/script/global_query.py:29-33 | None exactly when `q(\d+)_` matches nowhere in the name |
| GlobalQuery.QueryNumberOfName | src/planner/script/global_query.py:29-33 | a name `q<digits>_...` has the number its digits spell |
| GlobalQuery.FirstCostOf | src/planner/script/global_query.py:40-45 | None exactly when no row has the stage |
| GlobalQuery.FirstCostIsFirstRow | src/planner/script/global_query.py:40-45 | the cost found is that of the first row with the stage |
| GlobalQuery.LoadInitialCosts | src/planner/script/global_query.py:20-68 | the loop fills the initial and stage-2 dictionaries as the fold `InitialCosts` over the found files |
| GlobalQuery.RecordStagesBelowCeiling | src/planner/script/global_query.py:44-65 | one file never records a cost above 1e30 |
| GlobalQuery.RecordFileBelowCeiling | src/planner/script/global_query.py:26-68 | nor does one loop iteration |
| GlobalQuery.InitialCostsBelowCeiling | src/planner/script/global_query.py:47-49 | whatever the files hold, no recorded initial or stage-2 cost exceeds 1e30 (also lines 59-61) |
| GlobalQuery.TooHighSkipsFile | src/planner/script/global_query.py:47-49 | a stage-1 cost above 1e30 skips the whole file, stage 2 included |
| GlobalQuery.RecordStages | src/planner/script/global_query.py:44-65 | defined here as one file's stage costs; `RecordStagesBelowCeiling`, `TooHighSkipsFile` and `NotANumberIsZero` state the ceiling, the skip and the coercion |
| GlobalQuery.InitialCosts | src/planner/script/global_query.py:20-68 | defined here as the fold over the found files; `LoadInitialCosts` ties the loop to it, `InitialCostsBelowCeiling` and `InitialKeysFromNames` bound its costs and keys |
| GlobalQuery.NotANumberIsZero | src/planner/script/global_query.py:45-52 | a non-numeric stage-1 cost is recorded as 0.0 |
| GlobalQuery.RecordFileKeys | src/planner/script/global_query.py:29-33 | a file adds at most the query number in its name |
| GlobalQuery.InitialKeysFromNames | src/planner/script/global_query.py:26-52 | every query number with a cost came from the name of a found file |
| GlobalQuery.FinalCostOf | src/planner/script/global_query.py:92-94 | a cell is read exactly when the table has a row and a `Stage_3_Cost` column |
| GlobalQuery.FinalCostIsStage3Cell | src/planner/script/global_query.py:93-94 | a number read is the first row's cell under the first `Stage_3_Cost` column |
| GlobalQuery.LoadFinalCosts | src/planner/script/global_query.py:71-107 | the loop fills the final dictionary as the fold `FinalCosts` over the found files |
| GlobalQuery.FinalCostRecorded | src/planner/script/global_query.py:92-98 | a final cost is recorded exactly when the table has a row, the column and a number there, and it is not coerced |
| GlobalQuery.RecordFinal | src/planner/script/global_query.py:92-98 | defined here as one file's final cost; `FinalCostRecorded` states exactly when a cost is recorded |
| GlobalQuery.FinalCosts | src/planner/script/global_query.py:71-107 | defined here as the fold over the found files; `LoadFinalCosts` ties the loop to it, `NoStage3NoFinalCosts` states that tables without `Stage_3_Cost` give none |
| GlobalQuery.NoStage3NoFinalCosts | src/planner/script/global_query.py:93 | tables without `Stage_3_Cost` give no final cost |
| GlobalQuery.FinalColumnIsStage3 | src/planner/script/global_query.py:93 | `Stage_3_Cost` is the column name `optimizer.rs` gives stage 3 |
| GlobalQuery.TotalCostHeaderHasFinal | src/planner/script/global_query.py:93 | the optimiser's header has `Stage_3_Cost` exactly with three or more stage costs |
| GlobalQuery.OptimizerTablesGiveNoFinalCost | src/planner/script/global_query.py:92-98 | the tables `optimize` writes (`Query,Total_Cost`) give no final cost |
| GlobalQuery.TotalCostFileFound | src/planner/script/global_query.py:72-79 | the optimiser's total-cost file of a `q` stem is found by the glob under its own name |
| GlobalQuery.TotalCostPathInDir | src/planner/script/global_query.py:72 | that file lies in the directory the script globs |
| GlobalQuery.FilteredFileFound | src/planner/script/global_query.py:22-29 | the filtered copy of a `q` stem's data is found by the glob under its own name |
| GlobalQuery.FilteredFileInDir | src/planner/script/global_query.py:22 | the filtered copy of the optimiser's output lies in the directory the script globs |
| GlobalQuery.BaseNameInDir | src/planner/script/global_query.py:29 | the base name of a file directly under the directory is its name |
| GlobalQuery.OptimizerFilesNumbered | src/planner/script/global_query.py:29-33 | both files of a stem `q<digits>` carry the number the digits spell, so its two costs meet (also lines 79-83) |
| GlobalQuery.GlobSuffix | src/planner/script/global_query.py:23 | `lit*suffix` matches `lit`, any text, then `suffix` |
| GlobalQuery.Difference | src/planner/script/global_query.py:127-146 | initial minus reduction is the final cost; for a positive initial cost percent times initial is reduction times 100, otherwise percent is 0; the name is `Q` followed by the number's decimal digits |
| GlobalQuery.DifferenceNameReadsBack | src/planner/script/global_query.py:119 | the name is `Q` then digits that read back as the query number, so distinct queries get distinct names |
| GlobalQuery.PercentBounds | src/planner/script/global_query.py:129 | a final cost between 0 and a positive initial cost is a reduction of 0 to 100 percent; a larger final cost gives a negative one |
| GlobalQuery.Numbers | src/planner/script/global_query.py:138 | the query number of each result, in order |
| GlobalQuery.JoinStep | src/planner/script/global_query.py:118-148 | visiting a number above all seen appends its entry when it has both costs, and nothing otherwise |
| GlobalQuery.SortedNumbers | src/planner/script/global_query.py:116 | `sorted(set(...))` is strictly ascending and holds exactly the set's numbers |
| GlobalQuery.JoinCosts | src/planner/script/global_query.py:113-148 | one entry per number with both an initial and a final cost, ascending, each the difference of its costs, `stage2` looked up with `get` |
| GlobalQuery.CalculateCostDifferences | src/planner/script/global_query.py:13-157 | the result is the join of the costs loaded from the files both globs find |
| GlobalQuery.AscendingUnique | src/planner/script/global_query.py:116 | two strictly ascending sequences with the same numbers are equal |
| GlobalQuery.JoinsUnique | src/planner/script/global_query.py:116-148 | the join is determined by the three dictionaries |
| GlobalQuery.NoFinalNoResults | src/planner/script/global_query.py:127 | with no final costs there are no results |

## Left out

- File and directory I/O is not modelled: opening, creating directories, `glob`, `os.listdir`, `os.path.exists`, and reading `temp_file_path.txt`. Listings and file contents are parameters. The order a glob or a listing returns is the order of the given sequence.
- All plotting (matplotlib and seaborn), including `plot_cost_reduction`, and all console output are left out.
- The `egg` library is abstracted: `Runner`, `Extractor`, `EGraph`, the cost function and the static rule lists. An e-graph is its classes' formatted nodes, an expression is its nodes' formatted heads, and a run is a function parameter.
- Rust `Debug` formatting in `format_enode` is not modelled; each node is given as its formatted text.
- Floating point is not modelled:
  - the average node count (`avg_nodes`) and its `{:.2}` rendering;
  - the f32 total-cost sum and f32 cost rendering;
  - NaN arithmetic, which is `None` in `GlobalQuery.Numeric`;
  - `log10` magnitude in `global_query.py`.
  Costs are reals, so there is no rounding.
- Integer widths are not modelled: `usize` counts are unbounded naturals, apart from `usize::MAX` as the initial minimum. `int()` in `egg-merges.py` is ASCII digits with an optional sign; surrounding whitespace and underscores are not accepted.
- pandas typing and parsing are simplified:
  - `read_csv` dtype inference, `Stage` read as text, and `to_numeric` string parsing: cells are given already as numbers or NaN;
  - row alignment in `pd.concat`: the loaded frames are returned as a sequence;
  - CSV quoting beyond the expression field.
- Tie order is not modelled. Rust's `sort_by` after `HashMap` iteration has an unspecified order among equal totals, so `RuleStats.CollectEntries` leaves the entry order open. pandas' `sort_values` default quicksort is not stable; `Ranking.SortDesc` is a stable insertion sort. The proved properties do not depend on tie order.
- Regular expressions are modelled as concrete scans. `\d` is ASCII digits only, while Python also matches other Unicode decimal digits. Glob patterns support only `*`, the only wildcard the scripts use.
- `str.strip()` is modelled on the ASCII characters Python counts as whitespace: space, `\t\n\r\v\f` and the separators `\x1c`–`\x1f`. Non-ASCII whitespace such as U+0085, U+00A0 or U+2028, which Python also strips, is kept by the model.
- NaturalOrder.SortByKey: when two paths have a number and a word at the same token position (for example `stage_1_iter_1_rules_application.csv` next to `stage_a_iter_1_rules_application.csv`, both matched by the glob's `*`), Python's comparison raises `TypeError` at `rulesInfo_histogram.py:26`, outside the `try`, and the script stops. The model orders the number first instead and does not model that raise.
- NaturalOrder.SortByKeySorts: Python's `sorted` is stable, and `SortBy` inserts each element after those not greater than it, so equal keys keep listing order; this stability is not stated as a lemma.
- `GlobalQuery.LoadInitialCosts` and `GlobalQuery.LoadFinalCosts` take the files the glob found. The glob itself is computed in `GlobalQuery.CalculateCostDifferences`.
- Exceptions beyond those modelled as outcomes are not modelled, nor is the printing of exceptions in `except` clauses. Modelled outcomes include a missing header, `IndexError` in the projection, `ValueError` from `list.index` and `int`, and `read_csv` on an empty file; an uncaught one ends the loop that raised it (`TailWindows.FilterEach`, `TailWindows.MergeAll`).
- Optimizer.SaveTotalCosts: modelled only as `optimize` calls it, with no stage costs. The general header and row are `OptimizerOutput.TotalCostHeader` and `OptimizerOutput.TotalCostRow`.
- The "write header if the file is empty" checks of the appending writers are modelled only for rule statistics (`RuleStats.RuleStatsFile`). For `save_to_csv`, `save_egg_merges` and `save_stage_expression` the model records the data row each call appends.
