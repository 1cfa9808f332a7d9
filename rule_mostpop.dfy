/**
 * `rule_mostpop.py`: for each visited query and for stages 2 and 3, the five
 * most applied rules of the statistics file `optimizer.rs` wrote, in
 * descending order of total applications.
 *
 * A statistics file is read as its (Rule_Name, Total_Applications) pairs; the
 * files a run can see are a map from path to what `pd.read_csv` makes of them
 * (`None` when it raises).
 */
module RuleMostPop {
  import opened Wrappers
  import opened Text
  import opened Ranking
  import opened OptimizerOutput
  import opened RuleHeatmap

  const RuleStatsDir: string := "src/planner/outputs/rules_stats"

  /** The stages `process_query` looks at, in order. */
  const PlottedStages: seq<string> := ["2", "3"]

  /** `f"{base_path}/{query}_data/stage_{stage}_rule_stats.csv"`. */
  function StatsFilePath(query: string, stage: string): string
  {
    RuleStatsDir + "/" + query + "_data" + "/stage_" + stage + "_rule_stats.csv"
  }

  /** `sort_values('Total_Applications', ascending=False).head(5)`. */
  function TopFive(data: seq<RuleTotal>): seq<RuleTotal>
  {
    var sorted := SortDesc(data);
    if |sorted| <= 5 then sorted else sorted[..5]
  }

  /** A prefix of a non-increasing sequence is a non-increasing part of it that dominates the rest. */
  lemma PrefixSelects(sorted: seq<RuleTotal>, m: nat)
    requires NonIncreasing(sorted) && m <= |sorted|
    ensures var top := sorted[..m];
            multiset(top) <= multiset(sorted) &&
            NonIncreasing(top) &&
            forall x, y :: x in multiset(top) && y in multiset(sorted) - multiset(top) ==> x.total >= y.total
  {
    var top := sorted[..m];
    assert sorted == top + sorted[m..];
    assert multiset(sorted) - multiset(top) == multiset(sorted[m..]);
    PrefixDominatesRest(sorted, m);
    forall i, j | 0 <= i < j < |top| ensures top[i].total >= top[j].total {
      assert top[i] == sorted[i] && top[j] == sorted[j];
    }
  }

  /**
   * The selection holds the five largest totals, or all of them when there
   * are fewer: it is drawn from the input, is in non-increasing order, and
   * no entry left out has a larger total than an entry selected.
   */
  lemma TopFiveSelects(data: seq<RuleTotal>)
    ensures var top := TopFive(data);
            (|top| == if |data| < 5 then |data| else 5) &&
            multiset(top) <= multiset(data) &&
            NonIncreasing(top) &&
            forall x, y :: x in multiset(top) && y in multiset(data) - multiset(top) ==> x.total >= y.total
  {
    var sorted := SortDesc(data);
    SortDescSorts(data);
    var m := if |sorted| <= 5 then |sorted| else 5;
    assert sorted[..m] == TopFive(data);
    PrefixSelects(sorted, m);
  }

  /** A statistics file with five or fewer rules is selected whole. */
  lemma TopFiveOfFew(data: seq<RuleTotal>)
    requires |data| <= 5
    ensures multiset(TopFive(data)) == multiset(data)
  {
    SortDescSorts(data);
  }

  /** What becomes of one stage of one query. */
  datatype StageOutcome =
    | FileNotFound(path: string)
    /** `pd.read_csv` raised, or the selection was empty and `max` raised. */
    | Failed(path: string)
    | Plotted(path: string, top: seq<RuleTotal>)

  /** `process_query`'s body for one stage. */
  function ProcessStage(query: string, stage: string, files: map<string, Option<seq<RuleTotal>>>): (o: StageOutcome)
    ensures o.path == StatsFilePath(query, stage)
    ensures o.FileNotFound? <==> StatsFilePath(query, stage) !in files
    ensures o.Plotted? <==> StatsFilePath(query, stage) in files && files[StatsFilePath(query, stage)].Some? &&
                            files[StatsFilePath(query, stage)].value != []
    ensures o.Plotted? ==> o.top == TopFive(files[StatsFilePath(query, stage)].value)
  {
    var path := StatsFilePath(query, stage);
    if path !in files then FileNotFound(path)
    else match files[path]
      case None => Failed(path)
      case Some(data) =>
        var top := TopFive(data);
        if top == [] then Failed(path) else Plotted(path, top)
  }

  /** A plotted stage shows the top five of its file's rules, never an empty chart. */
  lemma PlottedIsTopFive(query: string, stage: string, files: map<string, Option<seq<RuleTotal>>>)
    requires ProcessStage(query, stage, files).Plotted?
    ensures var path := StatsFilePath(query, stage);
            path in files && files[path].Some? &&
            ProcessStage(query, stage, files).top == TopFive(files[path].value) &&
            0 < |ProcessStage(query, stage, files).top| <= 5
  {
    var path := StatsFilePath(query, stage);
    TopFiveSelects(files[path].value);
  }

  /** `process_query`: stages 2 and 3, in that order, each on its own file. */
  function ProcessQuery(query: string, files: map<string, Option<seq<RuleTotal>>>): (outcomes: seq<StageOutcome>)
    ensures |outcomes| == |PlottedStages|
    ensures forall k :: 0 <= k < |outcomes| ==>
              var path := StatsFilePath(query, PlottedStages[k]);
              outcomes[k].path == path &&
              (outcomes[k].FileNotFound? <==> path !in files) &&
              (outcomes[k].Plotted? <==> path in files && files[path].Some? && files[path].value != []) &&
              (outcomes[k].Plotted? ==> outcomes[k].top == TopFive(files[path].value))
  {
    seq(|PlottedStages|, k requires 0 <= k < |PlottedStages| => ProcessStage(query, PlottedStages[k], files))
  }

  /** `process_all_queries`: the query names of the `q*_data` folders, in listing order. */
  function QueriesOf(entries: seq<string>): (queries: seq<string>)
    ensures |queries| == |RuleDataFolders(entries)|
    ensures forall k :: 0 <= k < |queries| ==> queries[k] == QueryName(RuleDataFolders(entries)[k])
  {
    var folders := RuleDataFolders(entries);
    seq(|folders|, k requires 0 <= k < |folders| => QueryName(folders[k]))
  }

  /** Every query processed comes from a listed `q*_data` folder it begins, and holds no `_`. */
  lemma QueriesOfFolders(entries: seq<string>)
    ensures forall q :: q in QueriesOf(entries) ==>
              '_' !in q && exists f :: f in entries && EndsWith(f, "_data") && StartsWith(f, "q") && StartsWith(f, q)
  {
    var queries := QueriesOf(entries);
    var folders := RuleDataFolders(entries);
    forall q | q in queries
      ensures '_' !in q && exists f :: f in entries && EndsWith(f, "_data") && StartsWith(f, "q") && StartsWith(f, q)
    {
      var k :| 0 <= k < |queries| && queries[k] == q;
      assert folders[k] in folders;
    }
  }

  /**
   * The optimizer, run on `<stem>_data.csv`, writes its statistics under the
   * folder `<stem>_data`; the script visits that folder but looks for the
   * files under `<text before the first _>_data`, which is the same folder
   * exactly when the stem has no `_`.
   */
  lemma ReadsOptimizerStats(stem: string, stage: string)
    requires '/' !in stem
    ensures StatsFilePath(QueryName(stem + "_data"), stage) == RuleStatsPath(QueryDataPath(stem), stage) <==> '_' !in stem
  {
    OptimizerFolderName(stem);
    var name := BeforeFirst(stem, '_');
    var tail := "_data" + "/stage_" + stage + "_rule_stats.csv";
    StatsFilePathPieces(name, stage);
    StatsFilePathPieces(stem, stage);
    StatsFileOfOptimizer(stem, stage);
    ConcatCancel(RuleStatsDir + "/", name, stem, tail);
    assert name == stem <==> '_' !in stem;
  }

  /** The script's statistics path for `<stem>_data` is the optimizer's for `<stem>_data.csv`. */
  lemma StatsFileOfOptimizer(stem: string, stage: string)
    requires '/' !in stem
    ensures StatsFilePath(stem, stage) == RuleStatsPath(QueryDataPath(stem), stage)
  {
    QueryDataNames(stem);
    assert RuleStatsDir + "/" == "src/planner/outputs/rules_stats/";
  }

  lemma StatsFilePathPieces(query: string, stage: string)
    ensures StatsFilePath(query, stage) == RuleStatsDir + "/" + query + ("_data" + "/stage_" + stage + "_rule_stats.csv")
  {
  }
}
