/**
 * The driver of `optimizer.rs`: `optimize_stage`, which runs the stage's rules
 * a fixed number of times, each run starting from the previous run's best
 * expression, and saves its data only after the last run; and `optimize`,
 * which saves the stage-0 data, runs stages 1 to 3 and writes the total-cost
 * table.
 *
 * An `egg` run (the `Runner` with the stage's rules and iteration limit, then
 * the `Extractor` with the cost function) is abstracted as a function from the
 * starting expression to what the run yields. What each save function would
 * write is recorded as a `Write` naming the file and the data.
 */
module Optimizer {
  import opened Text
  import opened EgraphStats
  import opened Ranking
  import opened RuleStats
  import opened OptimizerOutput

  /** What one run yields: the best expression and its cost, the e-graph's classes, the runner's iterations and counters. */
  datatype RunOutcome = RunOutcome(
    cost: real,
    best: seq<string>,
    classes: seq<seq<string>>,
    iterations: seq<Iteration>,
    mergeCount: nat,
    hcSize: nat,
    numClasses: nat)

  /** The data a save function writes. */
  datatype Saved =
    | StatsRow(stage: string, cost: real, relacionais: nat, classesTotal: nat, minNodes: nat, maxNodes: nat)
    | ClassDetails(stage: string, infos: seq<ClassInfo>)
    | RulesData(stage: string, rows: seq<seq<string>>)
    | EggMerges(stage: string, mergeCount: nat, hcSize: nat, numClasses: nat)
    | StageExpression(stage: string, expr: seq<string>)
    | RuleStatsSaved(stage: string, mode: WriteMode, stats: seq<RuleTotal>)
    | TotalCosts(header: seq<string>, row: seq<string>)

  /** The file a save goes to, named by the save function that writes it. */
  datatype Target =
    | QueryDataCsv
    | ClassDetailsCsv(stage: string)
    | RulesDataCsv(stage: string)
    | EggMergesCsv
    | ExpressionsCsv
    | RuleStatsCsv(stage: string)
    | TotalCostCsv(queryName: string)

  /** One save: the file and what goes into it. */
  datatype Write = Write(target: Target, data: Saved)

  /** The path of a target, given the optimiser's output file `query_data/<stem>_data.csv`. */
  function PathOf(target: Target, outputFile: string): string
  {
    match target
    case QueryDataCsv => outputFile
    case ClassDetailsCsv(stage) => ClassDetailsPath(outputFile, stage)
    case RulesDataCsv(stage) => RulesDataPath(outputFile, stage)
    case EggMergesCsv => EggMergesPath(outputFile)
    case ExpressionsCsv => ExpressionsPath(outputFile)
    case RuleStatsCsv(stage) => RuleStatsPath(outputFile, stage)
    case TotalCostCsv(queryName) => TotalCostPath(queryName)
  }

  /** The expression after `n` runs, each starting from the previous run's best expression. */
  function Iterate(run: seq<string> -> RunOutcome, expr: seq<string>, n: nat): seq<string>
  {
    if n == 0 then expr else run(Iterate(run, expr, n - 1)).best
  }

  /** The writer `optimize_stage` picks for the rule statistics: appending for stems starting with `q15`. */
  function RuleStatsMode(fileStem: string): (mode: WriteMode)
    ensures mode == Append <==> StartsWith(fileStem, "q15")
  {
    if StartsWith(fileStem, "q15") then Append else Overwrite
  }

  /**
   * The first five saves after a stage's last run, in order: the statistics
   * row, the class details, the rule-application rows, the merge counters and
   * the expression.
   */
  predicate DataSaves(writes: seq<Write>, stage: string, outcome: RunOutcome)
  {
    |writes| == 5 &&
    writes[0] == Write(QueryDataCsv, StatsRow(stage, outcome.cost, CountRelational(outcome.best), |outcome.classes|,
                                              MinCount(NodeCounts(outcome.classes)), MaxCount(NodeCounts(outcome.classes)))) &&
    writes[1] == Write(ClassDetailsCsv(stage), ClassDetails(stage, Infos(outcome.classes))) &&
    writes[2] == Write(RulesDataCsv(stage), RulesData(stage, ExpandAll(stage, outcome.iterations))) &&
    writes[3] == Write(EggMergesCsv, EggMerges(stage, outcome.mergeCount, outcome.hcSize, outcome.numClasses)) &&
    writes[4] == Write(ExpressionsCsv, StageExpression(stage, outcome.best))
  }

  /**
   * The last save: the rule statistics of the run, written with the writer
   * the file stem selects; each applied rule once, with its total, in
   * non-increasing order.
   */
  predicate RuleStatsSave(w: Write, stage: string, outcome: RunOutcome, fileStem: string)
  {
    w.target == RuleStatsCsv(stage) &&
    w.data.RuleStatsSaved? && w.data.stage == stage && w.data.mode == RuleStatsMode(fileStem) &&
    RulesOf(w.data.stats) == Names(AllApplied(outcome.iterations)) && DistinctRules(w.data.stats) &&
    NonIncreasing(w.data.stats) &&
    (forall k :: 0 <= k < |w.data.stats| ==> w.data.stats[k].total == TotalOf(AllApplied(outcome.iterations), w.data.stats[k].rule))
  }

  /** The six saves `optimize_stage` makes after its last run. */
  predicate StageSaves(writes: seq<Write>, stage: string, outcome: RunOutcome, fileStem: string)
  {
    |writes| == 6 && DataSaves(writes[..5], stage, outcome) && RuleStatsSave(writes[5], stage, outcome, fileStem)
  }

  /** `save_to_csv`, `save_class_details`, `save_rules_data`, `save_egg_merges` and `save_stage_expression`. */
  method SaveStageData(stage: string, outcome: RunOutcome, infos: seq<ClassInfo>, classesEq: nat, minNodes: nat, maxNodes: nat)
    returns (writes: seq<Write>)
    requires infos == Infos(outcome.classes) && classesEq == |outcome.classes|
    requires minNodes == MinCount(NodeCounts(outcome.classes)) && maxNodes == MaxCount(NodeCounts(outcome.classes))
    ensures DataSaves(writes, stage, outcome)
  {
    var relacionais := DetailExpr(outcome.best);
    var rows := RulesApplicationRows(stage, outcome.iterations);
    writes := [
      Write(QueryDataCsv, StatsRow(stage, outcome.cost, relacionais, classesEq, minNodes, maxNodes)),
      Write(ClassDetailsCsv(stage), ClassDetails(stage, infos)),
      Write(RulesDataCsv(stage), RulesData(stage, rows)),
      Write(EggMergesCsv, EggMerges(stage, outcome.mergeCount, outcome.hcSize, outcome.numClasses)),
      Write(ExpressionsCsv, StageExpression(stage, outcome.best))
    ];
  }

  /** The rule-statistics save: `append_rule_statistics` for `q15…` stems, `analyze_and_save_rule_statistics` otherwise. */
  method SaveRuleStatistics(stage: string, outcome: RunOutcome, fileStem: string) returns (w: Write)
    ensures RuleStatsSave(w, stage, outcome, fileStem)
  {
    var ruleStats := RuleStatistics(outcome.iterations);
    if StartsWith(fileStem, "q15") {
      w := Write(RuleStatsCsv(stage), RuleStatsSaved(stage, Append, ruleStats));
    } else {
      w := Write(RuleStatsCsv(stage), RuleStatsSaved(stage, Overwrite, ruleStats));
    }
  }

  /** The body of the `if i == iteration - 1` block: the saves after the last run. */
  method SaveStage(stage: string, outcome: RunOutcome, infos: seq<ClassInfo>, classesEq: nat, minNodes: nat, maxNodes: nat,
                   fileStem: string)
    returns (writes: seq<Write>)
    requires infos == Infos(outcome.classes) && classesEq == |outcome.classes|
    requires minNodes == MinCount(NodeCounts(outcome.classes)) && maxNodes == MaxCount(NodeCounts(outcome.classes))
    ensures StageSaves(writes, stage, outcome, fileStem)
  {
    var data := SaveStageData(stage, outcome, infos, classesEq, minNodes, maxNodes);
    var w := SaveRuleStatistics(stage, outcome, fileStem);
    writes := data + [w];
    assert writes[..5] == data;
  }

  /**
   * `optimize_stage`: `iteration` runs, each from the previous best
   * expression; the cost and expression become the last run's, and only the
   * last run's data is saved. With no runs nothing changes and nothing is saved.
   */
  method OptimizeStage(expr: seq<string>, cost: real, run: seq<string> -> RunOutcome, iteration: nat,
                       stage: string, fileStem: string)
    returns (newExpr: seq<string>, newCost: real, writes: seq<Write>)
    ensures newExpr == Iterate(run, expr, iteration)
    ensures iteration == 0 ==> newCost == cost && writes == []
    ensures iteration > 0 ==> newCost == run(Iterate(run, expr, iteration - 1)).cost &&
                              StageSaves(writes, stage, run(Iterate(run, expr, iteration - 1)), fileStem)
  {
    newExpr := expr;
    newCost := cost;
    writes := [];
    var i := 0;
    while i < iteration
      invariant i <= iteration && newExpr == Iterate(run, expr, i)
      invariant i == 0 ==> newCost == cost && writes == []
      invariant i < iteration ==> writes == []
      invariant i > 0 ==> newCost == run(Iterate(run, expr, i - 1)).cost
      invariant i == iteration > 0 ==> StageSaves(writes, stage, run(Iterate(run, expr, i - 1)), fileStem)
    {
      var outcome := run(newExpr);
      newExpr := outcome.best;
      newCost := outcome.cost;
      var classesEq, minNodes, maxNodes, infos := VisitAndEnumerate(outcome.classes);
      if i == iteration - 1 {
        writes := SaveStage(stage, outcome, infos, classesEq, minNodes, maxNodes, fileStem);
      }
      i := i + 1;
    }
  }

  /** The number of runs of stages 1, 2 and 3 (the `iteration` argument `optimize` passes). */
  const Stage1Runs: nat := 2
  const Stage2Runs: nat := 4
  const Stage3Runs: nat := 3

  /** `f32::MAX`, the cost before any stage has run. */
  const F32Max: real := 340282346638528859811704183484516925440.0

  /** The stage-0 saves of `optimize`: statistics row, class details, merge counters and expression. */
  predicate StageZeroSaves(writes: seq<Write>, expr: seq<string>, classes: seq<seq<string>>,
                           mergeCount: nat, hcSize: nat, numClasses: nat)
  {
    |writes| == 4 &&
    writes[0] == Write(QueryDataCsv, StatsRow("0", F32Max, CountRelational(expr), |classes|,
                                            MinCount(NodeCounts(classes)), MaxCount(NodeCounts(classes)))) &&
    writes[1] == Write(ClassDetailsCsv("0"), ClassDetails("0", Infos(classes))) &&
    writes[2] == Write(EggMergesCsv, EggMerges("0", mergeCount, hcSize, numClasses)) &&
    writes[3] == Write(ExpressionsCsv, StageExpression("0", expr))
  }

  /** The stage-0 block of `optimize`: the saves for the expression as given, before any stage runs. */
  method SaveStageZero(expr: seq<string>, classes: seq<seq<string>>, mergeCount: nat, hcSize: nat, numClasses: nat)
    returns (writes: seq<Write>)
    ensures StageZeroSaves(writes, expr, classes, mergeCount, hcSize, numClasses)
  {
    var relacionais := DetailExpr(expr);
    var classesEq, minNodes, maxNodes, infos := VisitAndEnumerate(classes);
    writes := [
      Write(QueryDataCsv, StatsRow("0", F32Max, relacionais, classesEq, minNodes, maxNodes)),
      Write(ClassDetailsCsv("0"), ClassDetails("0", infos)),
      Write(EggMergesCsv, EggMerges("0", mergeCount, hcSize, numClasses)),
      Write(ExpressionsCsv, StageExpression("0", expr))
    ];
  }

  /**
   * `calculate_and_save_total_costs` as `optimize` calls it: with no stage
   * costs collected, the table holds only the query name and a total of 0.
   */
  method SaveTotalCosts(queryName: string, stageCosts: seq<string>) returns (w: Write)
    requires stageCosts == []
    ensures w == Write(TotalCostCsv(queryName), TotalCosts(["Query", "Total_Cost"], [queryName, "0"]))
  {
    var header := TotalCostHeader(|stageCosts|);
    var row := TotalCostRow(queryName, stageCosts, "0");
    assert header == ["Query", "Total_Cost"];
    assert row == [queryName, "0"];
    w := Write(TotalCostCsv(queryName), TotalCosts(header, row));
  }

  /**
   * `optimize`: the stage-0 saves for the expression as given (its e-graph
   * and counters are parameters), then stages 1, 2 and 3 with 2, 4 and 3 runs
   * (`Stage1Runs`, `Stage2Runs`, `Stage3Runs`),
   * all saving under `query_data/<stem>_data.csv`, then the total-cost table
   * for the query. The stage costs are never collected, so that table holds
   * only the query and a total of 0.
   */
  method Optimize(expr: seq<string>, classes: seq<seq<string>>, mergeCount: nat, hcSize: nat, numClasses: nat,
                  run1: seq<string> -> RunOutcome, run2: seq<string> -> RunOutcome, run3: seq<string> -> RunOutcome,
                  contextFile: string)
    returns (best: seq<string>, outputFile: string, writes: seq<Write>)
    ensures outputFile == QueryDataPath(PathStem(contextFile))
    ensures var e1 := Iterate(run1, expr, Stage1Runs);
            var e2 := Iterate(run2, e1, Stage2Runs);
            best == Iterate(run3, e2, Stage3Runs)
    ensures var stem := PathStem(contextFile);
            var e1 := Iterate(run1, expr, Stage1Runs);
            var e2 := Iterate(run2, e1, Stage2Runs);
            |writes| == 23 &&
            StageZeroSaves(writes[..4], expr, classes, mergeCount, hcSize, numClasses) &&
            StageSaves(writes[4..10], "1", run1(Iterate(run1, expr, Stage1Runs - 1)), stem) &&
            StageSaves(writes[10..16], "2", run2(Iterate(run2, e1, Stage2Runs - 1)), stem) &&
            StageSaves(writes[16..22], "3", run3(Iterate(run3, e2, Stage3Runs - 1)), stem) &&
            writes[22] == Write(TotalCostCsv(stem), TotalCosts(["Query", "Total_Cost"], [stem, "0"]))
  {
    var fileStem := PathStem(contextFile);
    outputFile := QueryDataPath(fileStem);
    var cost := F32Max;
    var w0 := SaveStageZero(expr, classes, mergeCount, hcSize, numClasses);

    var w1, w2, w3;
    best, cost, w1 := OptimizeStage(expr, cost, run1, Stage1Runs, "1", fileStem);
    best, cost, w2 := OptimizeStage(best, cost, run2, Stage2Runs, "2", fileStem);
    best, cost, w3 := OptimizeStage(best, cost, run3, Stage3Runs, "3", fileStem);

    var wt := SaveTotalCosts(fileStem, []);
    writes := w0 + w1 + w2 + w3 + [wt];
    ConcatSlices(w0, w1, w2, w3, [wt]);
  }

  /** Each part of a concatenation of five sequences is the slice at its offset. */
  lemma ConcatSlices<T>(a: seq<T>, b: seq<T>, c: seq<T>, d: seq<T>, e: seq<T>)
    ensures var s := a + b + c + d + e;
            var i, j, k := |a| + |b|, |a| + |b| + |c|, |a| + |b| + |c| + |d|;
            s[..|a|] == a && s[|a|..i] == b && s[i..j] == c && s[j..k] == d && s[k..] == e
  {
    var s := a + b + c + d + e;
    var i, j, k := |a| + |b|, |a| + |b| + |c|, |a| + |b| + |c| + |d|;
    assert s[..|a|] == a;
    assert s[|a|..i] == b;
    assert s[i..j] == c;
    assert s[j..k] == d;
    assert s[k..] == e;
  }

  /** A file stem never contains `/`. */
  lemma PathStemHasNoSlash(path: string)
    ensures '/' !in PathStem(path)
  {
    match FileName(path)
    case None =>
    case Some(name) =>
      assert forall k :: 0 <= k < |FileStem(name)| ==> FileStem(name)[k] == name[k];
  }

  /**
   * Where `optimize` saves for a context file with stem `stem`: the class
   * details and expressions under the query directory (`stem` up to its first
   * `_`), the rule data, rule statistics and merges under `<stem>_data`.
   */
  lemma ClassDetailsSavePath(contextFile: string, stage: string)
    ensures var stem := PathStem(contextFile);
            var query := BeforeFirst(stem, '_');
            PathOf(ClassDetailsCsv(stage), QueryDataPath(stem)) ==
              if query == "" then "src/planner/outputs/data_classes" + "/" + ("stage_" + stage + "_classes.csv")
              else "src/planner/outputs/data_classes" + "/" + query + "/" + ("stage_" + stage + "_classes.csv")
  {
    PathStemHasNoSlash(contextFile);
    QueryDataNames(PathStem(contextFile));
    PathJoinTwice("src/planner/outputs/data_classes", BeforeFirst(PathStem(contextFile), '_'), "stage_" + stage + "_classes.csv");
  }

  lemma ExpressionsSavePath(contextFile: string)
    ensures var stem := PathStem(contextFile);
            var query := BeforeFirst(stem, '_');
            PathOf(ExpressionsCsv, QueryDataPath(stem)) ==
              if query == "" then "src/planner/outputs/expressions" + "/" + "expressions.csv"
              else "src/planner/outputs/expressions" + "/" + query + "/" + "expressions.csv"
  {
    PathStemHasNoSlash(contextFile);
    QueryDataNames(PathStem(contextFile));
    PathJoinTwice("src/planner/outputs/expressions", BeforeFirst(PathStem(contextFile), '_'), "expressions.csv");
  }

  lemma RulesDataSavePath(contextFile: string, stage: string)
    ensures var stem := PathStem(contextFile);
            PathOf(RulesDataCsv(stage), QueryDataPath(stem)) ==
              "src/planner/outputs/rules_data/" + (stem + "_data") + "/stage_" + stage + "_rules_application.csv"
  {
    PathStemHasNoSlash(contextFile);
    QueryDataNames(PathStem(contextFile));
  }

  lemma RuleStatsSavePath(contextFile: string, stage: string)
    ensures var stem := PathStem(contextFile);
            PathOf(RuleStatsCsv(stage), QueryDataPath(stem)) ==
              "src/planner/outputs/rules_stats/" + (stem + "_data") + "/stage_" + stage + "_rule_stats.csv"
  {
    PathStemHasNoSlash(contextFile);
    QueryDataNames(PathStem(contextFile));
  }

  lemma EggMergesSavePath(contextFile: string)
    ensures var stem := PathStem(contextFile);
            PathOf(EggMergesCsv, QueryDataPath(stem)) == "src/planner/outputs/egg-merges/" + (stem + "_data") + "/egg_merges.csv"
  {
    PathStemHasNoSlash(contextFile);
    QueryDataNames(PathStem(contextFile));
  }
}
