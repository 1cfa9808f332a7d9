/**
 * `calculate_cost_differences` of `global_query.py`: the initial (stage 1)
 * and stage-2 costs are read from the filtered query-data files, the final
 * cost from the `Stage_3_Cost` column of the total-cost files, each keyed by
 * the query number in the file's name, and the two are joined into one cost
 * difference per query number that has both, in ascending order.
 *
 * What a glob finds is a directory listing given as a parameter; what
 * `pd.read_csv` makes of a file is a map from path to its content, with a
 * path the map lacks (and a file whose `Stage` or `Custo` column is missing)
 * read as `Unreadable`, the case the `except` clause swallows. A numeric cell
 * is the value `pd.to_numeric(..., errors='coerce')` gives: a number, or
 * `None` for NaN. Floating-point values are modelled as reals.
 */
module GlobalQuery {
  import opened Wrappers
  import opened Text
  import opened OptimizerOutput
  import TailWindows
  import RuleFileNames

  const InitialCostDir: string := "src/planner/outputs/filtered_query_data/"
  const InitialSuffix: string := "_data_filtered.csv"
  /** `q*_data_filtered.csv`. */
  const InitialPattern: string := "q" + ("*" + InitialSuffix)
  const FinalCostDir: string := "src/planner/outputs/total_costs/"
  const FinalSuffix: string := "_total_cost.csv"
  /** `q*_total_cost.csv`. */
  const FinalPattern: string := "q" + ("*" + FinalSuffix)
  const FinalCostColumn: string := "Stage_3_Cost"

  /** The double nearest to the literal `1e30`, the ceiling above which a cost counts as unavailable. */
  const CostCeiling: real := 1000000000000000019884624838656.0

  /** A cell after `pd.to_numeric(..., errors='coerce')`: `None` is NaN. */
  type Numeric = Option<real>

  // ---------------------------------------------------------------------------
  // Finding the files.

  /** `glob.glob(os.path.join(dir, pattern))` for a directory ending in `/`: the matching names of the listing, under the directory. */
  function Globbed(dir: string, pattern: string, listing: seq<string>): (paths: seq<string>)
    ensures |paths| <= |listing|
  {
    if listing == [] then []
    else
      var init := Globbed(dir, pattern, listing[..|listing| - 1]);
      var name := listing[|listing| - 1];
      if RuleFileNames.GlobMatch(pattern, name) then init + [dir + name] else init
  }

  /** The glob finds exactly the matching names of the listing. */
  lemma {:induction false} GlobbedPaths(dir: string, pattern: string, listing: seq<string>)
    ensures forall p :: p in Globbed(dir, pattern, listing) <==>
              exists name :: name in listing && RuleFileNames.GlobMatch(pattern, name) && p == dir + name
  {
    if listing != [] {
      var init := listing[..|listing| - 1];
      var name := listing[|listing| - 1];
      GlobbedPaths(dir, pattern, init);
      assert listing == init + [name];
    }
  }

  // ---------------------------------------------------------------------------
  // re.search(r'q(\d+)_', name)

  /**
   * The digits of a match of `q(\d+)_` starting at `i`. The greedy `\d+`
   * could only give back digits, which never match `_`, so only the maximal
   * run of digits after the `q` can be followed by the `_`.
   */
  function QueryDigitsAt(s: string, i: nat): (r: Option<string>)
    requires i <= |s|
    ensures r.Some? ==> r.value != [] && AllDigits(r.value) && OccursAt(s, i, "q" + r.value + "_")
  {
    if i < |s| && s[i] == 'q' then
      var n := RunLength(s, i + 1, Digits);
      if n > 0 && i + 1 + n < |s| && s[i + 1 + n] == '_' then
        var d := s[i + 1..i + 1 + n];
        assert s[i..i + |"q" + d + "_"|] == "q" + d + "_";
        Some(d)
      else None
    else None
  }

  /** The first position from `i` on where the pattern matches. */
  function FindQueryDigits(s: string, i: nat): (r: Option<nat>)
    requires i <= |s|
    ensures r.Some? ==> i <= r.value <= |s| && QueryDigitsAt(s, r.value).Some?
    ensures forall j :: i <= j <= |s| && (r.None? || j < r.value) ==> QueryDigitsAt(s, j).None?
    decreases |s| - i
  {
    if QueryDigitsAt(s, i).Some? then Some(i)
    else if i == |s| then None
    else FindQueryDigits(s, i + 1)
  }

  /** `int(re.search(r'q(\d+)_', name).group(1))`, or `None` when there is no match. */
  function QueryNumber(name: string): (r: Option<nat>)
    ensures r.None? <==> forall j :: 0 <= j <= |name| ==> QueryDigitsAt(name, j).None?
  {
    match FindQueryDigits(name, 0)
    case None => None
    case Some(i) => Some(ParseNat(QueryDigitsAt(name, i).value))
  }

  /** A name that begins with `q`, digits and `_` carries the number those digits spell. */
  lemma QueryNumberOfName(d: string, rest: string)
    requires d != [] && AllDigits(d)
    ensures QueryNumber("q" + d + "_" + rest) == Some(ParseNat(d))
  {
    var s := "q" + d + "_" + rest;
    assert s[0] == 'q' && s[1 + |d|] == '_';
    assert forall k :: 1 <= k < 1 + |d| ==> s[k] == d[k - 1];
    var n := RunLength(s, 1, Digits);
    assert n == |d|;
    assert s[1..1 + n] == d;
  }

  // ---------------------------------------------------------------------------
  // Step 1: the initial and stage-2 costs.

  /** One row of a filtered query-data file: its `Stage` and its `Custo`, both as numbers. */
  datatype CostRow = CostRow(stage: Numeric, cost: Numeric)

  datatype CostFile = Unreadable | Frame(rows: seq<CostRow>)

  /** `df[df['Stage'] == stage]['Custo'].iloc[0]`, or `None` when no row has that stage. */
  function FirstCostOf(rows: seq<CostRow>, stage: real): (r: Option<Numeric>)
    ensures r.None? <==> forall k :: 0 <= k < |rows| ==> rows[k].stage != Some(stage)
  {
    if rows == [] then None
    else if rows[0].stage == Some(stage) then Some(rows[0].cost)
    else
      assert forall k :: 1 <= k < |rows| ==> rows[k] == rows[1..][k - 1];
      FirstCostOf(rows[1..], stage)
  }

  /** The cost found is that of the first row with the stage. */
  lemma {:induction false} FirstCostIsFirstRow(rows: seq<CostRow>, stage: real)
    requires FirstCostOf(rows, stage).Some?
    ensures exists k :: 0 <= k < |rows| && rows[k].stage == Some(stage) && FirstCostOf(rows, stage).value == rows[k].cost &&
                        forall j :: 0 <= j < k ==> rows[j].stage != Some(stage)
  {
    if rows[0].stage != Some(stage) {
      var tail := rows[1..];
      FirstCostIsFirstRow(tail, stage);
      var k :| 0 <= k < |tail| && tail[k].stage == Some(stage) && FirstCostOf(tail, stage).value == tail[k].cost &&
               forall j :: 0 <= j < k ==> tail[j].stage != Some(stage);
      assert rows[k + 1] == tail[k];
      assert forall j :: 1 <= j < k + 1 ==> rows[j] == tail[j - 1];
    }
  }

  /** `cost > 1e30`, which is false for NaN. */
  predicate TooHigh(cost: Numeric)
  {
    cost.Some? && cost.value > CostCeiling
  }

  /** `0.0 if pd.isna(cost) else cost`. */
  function OrZero(cost: Numeric): real
  {
    if cost.Some? then cost.value else 0.0
  }

  /** The `initial_costs` and `stage2_costs` dictionaries. */
  datatype Costs = Costs(initial: map<nat, real>, stage2: map<nat, real>)

  /**
   * The two `if` blocks for a file with query number `q`: a stage-1 cost
   * above the ceiling skips the rest of the file, stage 2 included; a
   * stage-2 cost above it skips only stage 2.
   */
  function RecordStages(c: Costs, q: nat, rows: seq<CostRow>): Costs
  {
    var s1 := FirstCostOf(rows, 1.0);
    if s1.Some? && TooHigh(s1.value) then c
    else
      var c1 := if s1.Some? then c.(initial := c.initial[q := OrZero(s1.value)]) else c;
      var s2 := FirstCostOf(rows, 2.0);
      if s2.Some? && TooHigh(s2.value) then c1
      else if s2.Some? then c1.(stage2 := c1.stage2[q := OrZero(s2.value)])
      else c1
  }

  /** The loop body for one file: a name without a query number or an unreadable file leaves the costs as they are. */
  function RecordFile(c: Costs, path: string, read: map<string, CostFile>): Costs
  {
    match QueryNumber(TailWindows.BaseName(path))
    case None => c
    case Some(q) =>
      if path !in read || read[path].Unreadable? then c
      else RecordStages(c, q, read[path].rows)
  }

  /** The costs after the loop has visited `files` in order. */
  function InitialCosts(files: seq<string>, read: map<string, CostFile>): Costs
  {
    if files == [] then Costs(map[], map[])
    else RecordFile(InitialCosts(files[..|files| - 1], read), files[|files| - 1], read)
  }

  /** The loop of step 1 of `calculate_cost_differences`, over the files the glob found. */
  method LoadInitialCosts(files: seq<string>, read: map<string, CostFile>)
    returns (initialCosts: map<nat, real>, stage2Costs: map<nat, real>)
    ensures initialCosts == InitialCosts(files, read).initial && stage2Costs == InitialCosts(files, read).stage2
  {
    initialCosts, stage2Costs := map[], map[];
    for i := 0 to |files|
      invariant initialCosts == InitialCosts(files[..i], read).initial
      invariant stage2Costs == InitialCosts(files[..i], read).stage2
    {
      var file := files[i];
      assert files[..i + 1][..i] == files[..i];
      var queryMatch := QueryNumber(TailWindows.BaseName(file));
      if queryMatch.None? {
        continue;
      }
      var queryNum := queryMatch.value;
      if file !in read || read[file].Unreadable? {
        continue;
      }
      var rows := read[file].rows;
      var stage1Data := FirstCostOf(rows, 1.0);
      if stage1Data.Some? {
        var initialCost := stage1Data.value;
        if TooHigh(initialCost) {
          continue;
        }
        initialCosts := initialCosts[queryNum := OrZero(initialCost)];
      }
      var stage2Data := FirstCostOf(rows, 2.0);
      if stage2Data.Some? {
        var stage2Cost := stage2Data.value;
        if TooHigh(stage2Cost) {
          continue;
        }
        stage2Costs := stage2Costs[queryNum := OrZero(stage2Cost)];
      }
    }
    assert files[..|files|] == files;
  }

  /** No recorded initial or stage-2 cost is above the ceiling. */
  ghost predicate BelowCeiling(c: Costs)
  {
    (forall q :: q in c.initial ==> c.initial[q] <= CostCeiling) &&
    (forall q :: q in c.stage2 ==> c.stage2[q] <= CostCeiling)
  }

  lemma RecordStagesBelowCeiling(c: Costs, q: nat, rows: seq<CostRow>)
    requires BelowCeiling(c)
    ensures BelowCeiling(RecordStages(c, q, rows))
  {
  }

  lemma RecordFileBelowCeiling(c: Costs, path: string, read: map<string, CostFile>)
    requires BelowCeiling(c)
    ensures BelowCeiling(RecordFile(c, path, read))
  {
    match QueryNumber(TailWindows.BaseName(path))
    case None =>
    case Some(q) =>
      if path in read && read[path].Frame? {
        RecordStagesBelowCeiling(c, q, read[path].rows);
      }
  }

  /** Whatever the files hold, no cost above the ceiling is ever recorded. */
  lemma {:induction false} InitialCostsBelowCeiling(files: seq<string>, read: map<string, CostFile>)
    ensures BelowCeiling(InitialCosts(files, read))
  {
    if files != [] {
      InitialCostsBelowCeiling(files[..|files| - 1], read);
      RecordFileBelowCeiling(InitialCosts(files[..|files| - 1], read), files[|files| - 1], read);
    }
  }

  /** A stage-1 cost above the ceiling discards the whole file, its stage-2 cost included. */
  lemma TooHighSkipsFile(c: Costs, q: nat, rows: seq<CostRow>)
    requires var s1 := FirstCostOf(rows, 1.0); s1.Some? && TooHigh(s1.value)
    ensures RecordStages(c, q, rows) == c
  {
  }

  /** A stage-1 cost that is not a number is recorded as 0, and a stage-2 cost above the ceiling leaves the stage-1 cost recorded. */
  lemma NotANumberIsZero(c: Costs, q: nat, rows: seq<CostRow>)
    requires FirstCostOf(rows, 1.0) == Some(None)
    ensures q in RecordStages(c, q, rows).initial && RecordStages(c, q, rows).initial[q] == 0.0
  {
  }

  /** A file adds at most the query number its name carries. */
  lemma RecordFileKeys(c: Costs, path: string, read: map<string, CostFile>)
    ensures var r := RecordFile(c, path, read);
            forall q :: q in r.initial || q in r.stage2 ==>
              q in c.initial || q in c.stage2 || QueryNumber(TailWindows.BaseName(path)) == Some(q)
  {
  }

  /** Every query number with a cost was read from the name of a visited file. */
  lemma {:induction false} InitialKeysFromNames(files: seq<string>, read: map<string, CostFile>)
    ensures var c := InitialCosts(files, read);
            forall q :: q in c.initial || q in c.stage2 ==>
              exists f :: f in files && QueryNumber(TailWindows.BaseName(f)) == Some(q)
  {
    if files != [] {
      var init := files[..|files| - 1];
      var last := files[|files| - 1];
      InitialKeysFromNames(init, read);
      RecordFileKeys(InitialCosts(init, read), last, read);
      assert forall f :: f in init ==> f in files;
      assert last in files;
    }
  }

  // ---------------------------------------------------------------------------
  // Step 2: the final costs.

  /** A total-cost file: its column names and its rows, each cell as a number. */
  datatype TotalFile = NoTable | Table(columns: seq<string>, rows: seq<seq<Numeric>>)

  /**
   * `df['Stage_3_Cost'].iloc[0]` when the table has a row and the column; a
   * short row reads as NaN, as pandas pads it.
   */
  function FinalCostOf(columns: seq<string>, rows: seq<seq<Numeric>>): (r: Option<Numeric>)
    ensures r.Some? <==> |rows| > 0 && FinalCostColumn in columns
  {
    if |rows| == 0 then None
    else match FirstIndex(columns, FinalCostColumn)
      case None => None
      case Some(k) => Some(if k < |rows[0]| then rows[0][k] else None)
  }

  /** A number found is the first row's cell under the first `Stage_3_Cost` column. */
  lemma FinalCostIsStage3Cell(columns: seq<string>, rows: seq<seq<Numeric>>)
    requires FinalCostOf(columns, rows).Some? && FinalCostOf(columns, rows).value.Some?
    ensures exists k :: 0 <= k < |columns| && k < |rows[0]| && columns[k] == FinalCostColumn && FinalCostColumn !in columns[..k] &&
                        FinalCostOf(columns, rows).value == rows[0][k]
  {
    var k := FirstIndex(columns, FinalCostColumn).value;
    assert k < |rows[0]|;
  }

  /** The loop body for one total-cost file: only a numeric stage-3 cost is recorded, and it is never coerced. */
  function RecordFinal(final: map<nat, real>, path: string, read: map<string, TotalFile>): map<nat, real>
  {
    match QueryNumber(TailWindows.BaseName(path))
    case None => final
    case Some(q) =>
      if path !in read || read[path].NoTable? then final
      else
        var cost := FinalCostOf(read[path].columns, read[path].rows);
        if cost.Some? && cost.value.Some? then final[q := cost.value.value] else final
  }

  function FinalCosts(files: seq<string>, read: map<string, TotalFile>): map<nat, real>
  {
    if files == [] then map[]
    else RecordFinal(FinalCosts(files[..|files| - 1], read), files[|files| - 1], read)
  }

  /** The loop of step 2 of `calculate_cost_differences`, over the files the glob found. */
  method LoadFinalCosts(files: seq<string>, read: map<string, TotalFile>) returns (finalCosts: map<nat, real>)
    ensures finalCosts == FinalCosts(files, read)
  {
    finalCosts := map[];
    for i := 0 to |files|
      invariant finalCosts == FinalCosts(files[..i], read)
    {
      var file := files[i];
      assert files[..i + 1][..i] == files[..i];
      var queryMatch := QueryNumber(TailWindows.BaseName(file));
      if queryMatch.None? {
        continue;
      }
      var queryNum := queryMatch.value;
      if file !in read || read[file].NoTable? {
        continue;
      }
      var df := read[file];
      if |df.rows| > 0 && FinalCostColumn in df.columns {
        var finalCost := FinalCostOf(df.columns, df.rows).value;
        if finalCost.Some? {
          finalCosts := finalCosts[queryNum := finalCost.value];
          continue;
        }
      }
    }
    assert files[..|files|] == files;
  }

  /** A final cost is recorded for a file exactly when its table has a row, the column, and a number in that column's first cell. */
  lemma FinalCostRecorded(final: map<nat, real>, path: string, read: map<string, TotalFile>, q: nat)
    requires QueryNumber(TailWindows.BaseName(path)) == Some(q) && path in read && read[path].Table?
    ensures var t := read[path];
            q in RecordFinal(final, path, read) && q !in final <==>
              q !in final && |t.rows| > 0 && FinalCostColumn in t.columns && FinalCostOf(t.columns, t.rows).value.Some?
  {
  }

  /** A table without a `Stage_3_Cost` column contributes no final cost. */
  lemma {:induction false} NoStage3NoFinalCosts(files: seq<string>, read: map<string, TotalFile>)
    requires forall p :: p in read && read[p].Table? ==> FinalCostColumn !in read[p].columns
    ensures FinalCosts(files, read) == map[]
  {
    if files != [] {
      NoStage3NoFinalCosts(files[..|files| - 1], read);
    }
  }

  /** `Stage_3_Cost` is the name `optimizer.rs` gives the third stage's column. */
  lemma FinalColumnIsStage3()
    ensures StageCostName(3) == FinalCostColumn
  {
    assert NatToString(3) == "3";
  }

  /** The optimizer's total-cost header names a stage-3 column exactly when it carries three stage costs or more. */
  lemma TotalCostHeaderHasFinal(costs: seq<string>)
    ensures FinalCostColumn in TotalCostHeader(|costs|) <==> |costs| >= 3
  {
    FinalColumnIsStage3();
    TotalCostTableAligned("", costs, "");
  }

  /** When every total-cost table is one `optimize` writes (no stage costs, so `Query` and `Total_Cost` only), no final cost is found. */
  lemma OptimizerTablesGiveNoFinalCost(files: seq<string>, read: map<string, TotalFile>)
    requires forall p :: p in read && read[p].Table? ==> read[p].columns == TotalCostHeader(0)
    ensures FinalCosts(files, read) == map[]
  {
    TotalCostHeaderHasFinal([]);
    NoStage3NoFinalCosts(files, read);
  }

  // ---------------------------------------------------------------------------
  // The files the optimizer writes, as this script finds them.

  /** The optimizer's total-cost file for a query stem beginning with `q` is one the glob finds, under its own name. */
  lemma TotalCostFileFound(stem: string)
    requires StartsWith(stem, "q") && '/' !in stem
    ensures var name := stem + "_data" + FinalSuffix;
            TotalCostPath(stem) == FinalCostDir + name &&
            RuleFileNames.GlobMatch(FinalPattern, name) &&
            TailWindows.BaseName(FinalCostDir + name) == name
  {
    var name := stem + "_data" + FinalSuffix;
    TotalCostPathInDir(stem);
    SuffixesPlain();
    var middle := stem[1..] + "_data";
    assert stem == "q" + stem[1..];
    assert name == "q" + (middle + FinalSuffix);
    GlobSuffix("q", middle, FinalSuffix);
    NoSlashAppended(stem, "_data" + FinalSuffix);
    BaseNameInDir(FinalCostDir, name);
  }

  lemma TotalCostPathInDir(stem: string)
    ensures TotalCostPath(stem) == FinalCostDir + (stem + "_data" + FinalSuffix)
  {
  }

  /**
   * The filtered copy of the optimizer's output for a query stem beginning
   * with `q` (see `FilteredFileInDir`) is one the glob finds, under its own name.
   */
  lemma FilteredFileFound(stem: string)
    requires StartsWith(stem, "q") && '/' !in stem
    ensures var name := stem + InitialSuffix;
            RuleFileNames.GlobMatch(InitialPattern, name) &&
            TailWindows.BaseName(InitialCostDir + name) == name
  {
    var name := stem + InitialSuffix;
    SuffixesPlain();
    var middle := stem[1..];
    assert stem == "q" + stem[1..];
    assert name == "q" + (middle + InitialSuffix);
    GlobSuffix("q", middle, InitialSuffix);
    NoSlashAppended(stem, InitialSuffix);
    BaseNameInDir(InitialCostDir, name);
  }

  /** `extract_last_four` writes the filtered copy of the optimizer's output `query_data/<stem>_data.csv` to `<stem>_data_filtered.csv` in the directory this script reads. */
  lemma FilteredFileInDir(stem: string)
    requires '/' !in stem
    ensures TailWindows.FilteredPath(QueryDataPath(stem)) == InitialCostDir + (stem + InitialSuffix)
  {
    TailWindows.FilteredPathOfQueryData(stem);
    FilteredPathInDir(stem);
  }

  lemma SuffixesPlain()
    ensures '*' !in InitialSuffix && '/' !in InitialSuffix && '*' !in FinalSuffix && '/' !in "_data" + FinalSuffix
  {
  }

  lemma FilteredPathInDir(stem: string)
    ensures "src/planner/outputs/filtered_query_data/" + (stem + "_data") + "_filtered.csv" == InitialCostDir + (stem + InitialSuffix)
  {
  }

  lemma NoSlashAppended(stem: string, suffix: string)
    requires '/' !in stem && '/' !in suffix
    ensures '/' !in stem + suffix
  {
  }

  /** The base name of a file directly under a directory given with its trailing `/`. */
  lemma BaseNameInDir(dir: string, name: string)
    requires |dir| > 0 && dir[|dir| - 1] == '/' && '/' !in name
    ensures TailWindows.BaseName(dir + name) == name
  {
    var parent := dir[..|dir| - 1];
    assert dir == parent + "/";
    assert dir + name == parent + "/" + name;
    TailWindows.BaseNameUnder(parent, name);
  }

  /**
   * Both files of a query stem `q<digits>`, alone or followed by `_` and
   * more, carry the number the digits spell; the two costs of the query meet
   * under that number.
   */
  lemma OptimizerFilesNumbered(d: string, tail: string)
    requires d != [] && AllDigits(d) && (tail == [] || tail[0] == '_')
    ensures QueryNumber("q" + d + tail + "_data_filtered.csv") == Some(ParseNat(d))
    ensures QueryNumber("q" + d + tail + "_data_total_cost.csv") == Some(ParseNat(d))
  {
    StemNumber(d, tail, "_data_filtered.csv");
    StemNumber(d, tail, "_data_total_cost.csv");
  }

  lemma StemNumber(d: string, tail: string, suffix: string)
    requires d != [] && AllDigits(d) && suffix != [] && suffix[0] == '_'
    requires tail == [] || tail[0] == '_'
    ensures QueryNumber("q" + d + tail + suffix) == Some(ParseNat(d))
  {
    if tail == [] {
      assert "q" + d + tail + suffix == "q" + d + "_" + suffix[1..];
      QueryNumberOfName(d, suffix[1..]);
    } else {
      assert "q" + d + tail + suffix == "q" + d + "_" + (tail[1..] + suffix);
      QueryNumberOfName(d, tail[1..] + suffix);
    }
  }

  /** `lit*suffix` matches `lit`, anything, then `suffix`. */
  lemma GlobSuffix(lit: string, middle: string, suffix: string)
    requires '*' !in lit && '*' !in suffix
    ensures RuleFileNames.GlobMatch(lit + ("*" + suffix), lit + (middle + suffix))
  {
    var nothing: string := [];
    assert suffix + nothing == suffix;
    RuleFileNames.GlobLiteral(suffix, nothing, nothing);
    RuleFileNames.GlobStar(middle, suffix, suffix);
    RuleFileNames.GlobLiteral(lit, "*" + suffix, middle + suffix);
  }

  // ---------------------------------------------------------------------------
  // Step 3: the join.

  /** One entry of `cost_differences`; the magnitude is not modelled. */
  datatype CostDifference = CostDifference(
    queryNum: nat,
    queryName: string,
    initialCost: real,
    stage2Cost: Option<real>,
    finalCost: real,
    absoluteReduction: real,
    percentReduction: real)

  /** The entry for a query with both costs: the reduction, and its share of the initial cost in percent (0 when that cost is not positive). */
  function Difference(q: nat, initial: real, stage2: Option<real>, final: real): (d: CostDifference)
    ensures d.queryNum == q && d.initialCost == initial && d.stage2Cost == stage2 && d.finalCost == final
    ensures d.queryName == "Q" + NatToString(q)
    ensures d.initialCost - d.absoluteReduction == d.finalCost
    ensures initial > 0.0 ==> d.percentReduction * initial == d.absoluteReduction * 100.0
    ensures initial <= 0.0 ==> d.percentReduction == 0.0
  {
    var difference := initial - final;
    var percent := if initial > 0.0 then difference / initial * 100.0 else 0.0;
    CostDifference(q, "Q" + NatToString(q), initial, stage2, final, difference, percent)
  }

  /** The entry's name is `Q` and digits that read back as the query number, so distinct queries get distinct names. */
  lemma DifferenceNameReadsBack(q: nat, initial: real, stage2: Option<real>, final: real)
    ensures var name := Difference(q, initial, stage2, final).queryName;
            |name| > 1 && name[0] == 'Q' && AllDigits(name[1..]) && ParseNat(name[1..]) == q
  {
    var name := Difference(q, initial, stage2, final).queryName;
    assert name[1..] == NatToString(q);
    ParseNatToString(q);
  }

  /** A final cost between 0 and a positive initial cost is a reduction of between 0 and 100 percent; a final cost above it is a negative one. */
  lemma PercentBounds(q: nat, initial: real, stage2: Option<real>, final: real)
    requires initial > 0.0
    ensures var d := Difference(q, initial, stage2, final);
            (0.0 <= final <= initial ==> 0.0 <= d.percentReduction <= 100.0) &&
            (final > initial ==> d.percentReduction < 0.0)
  {
    var d := Difference(q, initial, stage2, final);
    assert d.percentReduction * initial == (initial - final) * 100.0;
  }

  /** `stage2_costs.get(query_num, None)`. */
  function Lookup(m: map<nat, real>, q: nat): Option<real>
  {
    if q in m then Some(m[q]) else None
  }

  predicate StrictlyAscending(s: seq<nat>)
  {
    forall i, j :: 0 <= i < j < |s| ==> s[i] < s[j]
  }

  function Numbers(results: seq<CostDifference>): (nums: seq<nat>)
    ensures |nums| == |results| && forall k :: 0 <= k < |results| ==> nums[k] == results[k].queryNum
  {
    seq(|results|, k requires 0 <= k < |results| => results[k].queryNum)
  }

  /** An entry is the difference of the costs recorded for its query number. */
  predicate Entry(d: CostDifference, initial: map<nat, real>, stage2: map<nat, real>, final: map<nat, real>)
  {
    var q := d.queryNum;
    q in initial && q in final && d == Difference(q, initial[q], Lookup(stage2, q), final[q])
  }

  /**
   * What step 3 returns: one entry per query number with both an initial and
   * a final cost, in ascending order, each the difference of its costs.
   */
  ghost predicate Joins(results: seq<CostDifference>, initial: map<nat, real>, stage2: map<nat, real>, final: map<nat, real>)
  {
    StrictlyAscending(Numbers(results)) &&
    (forall q :: q in Numbers(results) <==> q in initial && q in final) &&
    (forall k :: 0 <= k < |results| ==> Entry(results[k], initial, stage2, final))
  }

  /** `Joins` restricted to the query numbers visited so far. */
  ghost predicate JoinedSoFar(results: seq<CostDifference>, seen: seq<nat>,
                              initial: map<nat, real>, stage2: map<nat, real>, final: map<nat, real>)
  {
    StrictlyAscending(Numbers(results)) &&
    (forall q :: q in Numbers(results) <==> q in seen && q in initial && q in final) &&
    (forall k :: 0 <= k < |results| ==> Entry(results[k], initial, stage2, final))
  }

  /** Visiting a number above all those seen appends its entry when it has both costs, and nothing otherwise. */
  lemma JoinStep(results: seq<CostDifference>, seen: seq<nat>, q: nat,
                 initial: map<nat, real>, stage2: map<nat, real>, final: map<nat, real>)
    requires JoinedSoFar(results, seen, initial, stage2, final)
    requires forall x :: x in seen ==> x < q
    ensures JoinedSoFar(if q in initial && q in final then results + [Difference(q, initial[q], Lookup(stage2, q), final[q])] else results,
                        seen + [q], initial, stage2, final)
  {
    if q in initial && q in final {
      var r := results + [Difference(q, initial[q], Lookup(stage2, q), final[q])];
      assert Numbers(r) == Numbers(results) + [q];
      forall i, j | 0 <= i < j < |r| ensures Numbers(r)[i] < Numbers(r)[j] {
        if j == |results| {
          assert Numbers(results)[i] in Numbers(results);
        }
      }
      forall k | 0 <= k < |r| ensures Entry(r[k], initial, stage2, final) {
        if k < |results| {
          assert r[k] == results[k];
        }
      }
    }
  }

  /** The least number of a non-empty set. */
  ghost function Least(s: set<nat>): (m: nat)
    requires s != {}
    ensures m in s && forall x :: x in s ==> m <= x
  {
    var x :| x in s;
    var rest := s - {x};
    if rest == {} then
      assert forall y :: y in s ==> y == x || y in rest;
      x
    else
      var m := Least(rest);
      assert forall y :: y in s ==> y == x || y in rest;
      if x < m then x else m
  }

  /** `sorted(set(...))`: the numbers of the set in ascending order. */
  method SortedNumbers(s: set<nat>) returns (nums: seq<nat>)
    ensures StrictlyAscending(nums)
    ensures forall q :: q in nums <==> q in s
  {
    nums := [];
    var remaining := s;
    while remaining != {}
      invariant StrictlyAscending(nums)
      invariant forall q :: q in s <==> q in nums || q in remaining
      invariant forall k, q :: 0 <= k < |nums| && q in remaining ==> nums[k] < q
      decreases |remaining|
    {
      ghost var least := Least(remaining);
      var m :| m in remaining && forall x :: x in remaining ==> m <= x;
      nums := nums + [m];
      remaining := remaining - {m};
    }
  }

  /** Step 3 over the numbers of both dictionaries, in ascending order. */
  method JoinCosts(initial: map<nat, real>, stage2: map<nat, real>, final: map<nat, real>)
    returns (costDifferences: seq<CostDifference>)
    ensures Joins(costDifferences, initial, stage2, final)
  {
    var allQueryNums := SortedNumbers(initial.Keys + final.Keys);
    costDifferences := [];
    for i := 0 to |allQueryNums|
      invariant JoinedSoFar(costDifferences, allQueryNums[..i], initial, stage2, final)
    {
      var queryNum := allQueryNums[i];
      forall x | x in allQueryNums[..i] ensures x < queryNum {
        var j :| 0 <= j < i && allQueryNums[j] == x;
      }
      JoinStep(costDifferences, allQueryNums[..i], queryNum, initial, stage2, final);
      PrefixSnoc(allQueryNums, i);
      if queryNum in initial && queryNum in final {
        var result := Difference(queryNum, initial[queryNum], Lookup(stage2, queryNum), final[queryNum]);
        costDifferences := costDifferences + [result];
      }
    }
    assert allQueryNums[..|allQueryNums|] == allQueryNums;
  }

  lemma PrefixSnoc<T>(s: seq<T>, i: nat)
    requires i < |s|
    ensures s[..i + 1] == s[..i] + [s[i]]
  {
  }

  /** `calculate_cost_differences`: steps 1, 2 and 3 over the two directory listings. */
  method CalculateCostDifferences(initialListing: seq<string>, initialRead: map<string, CostFile>,
                                  finalListing: seq<string>, finalRead: map<string, TotalFile>)
    returns (costDifferences: seq<CostDifference>)
    ensures var c := InitialCosts(Globbed(InitialCostDir, InitialPattern, initialListing), initialRead);
            Joins(costDifferences, c.initial, c.stage2, FinalCosts(Globbed(FinalCostDir, FinalPattern, finalListing), finalRead))
  {
    var allDataFiles := Globbed(InitialCostDir, InitialPattern, initialListing);
    var initialCosts, stage2Costs := LoadInitialCosts(allDataFiles, initialRead);
    var totalCostFiles := Globbed(FinalCostDir, FinalPattern, finalListing);
    var finalCosts := LoadFinalCosts(totalCostFiles, finalRead);
    costDifferences := JoinCosts(initialCosts, stage2Costs, finalCosts);
  }

  lemma FirstIsMember<T>(s: seq<T>)
    ensures s != [] ==> s[0] in s
  {
  }

  /** Two strictly ascending sequences with the same elements are equal. */
  lemma {:induction false} AscendingUnique(a: seq<nat>, b: seq<nat>)
    requires StrictlyAscending(a) && StrictlyAscending(b)
    requires forall q :: q in a <==> q in b
    ensures a == b
  {
    FirstIsMember(a);
    FirstIsMember(b);
    if a != [] && b != [] {
      assert a[0] == b[0];
      forall q ensures q in a[1..] <==> q in b[1..] {
        if q in a[1..] {
          assert q in a && q != a[0];
        }
        if q in b[1..] {
          assert q in b && q != b[0];
        }
      }
      AscendingUnique(a[1..], b[1..]);
      assert a == [a[0]] + a[1..] && b == [b[0]] + b[1..];
    }
  }

  /** Step 3 leaves one possible result: the join is determined by the three dictionaries. */
  lemma JoinsUnique(r1: seq<CostDifference>, r2: seq<CostDifference>,
                    initial: map<nat, real>, stage2: map<nat, real>, final: map<nat, real>)
    requires Joins(r1, initial, stage2, final) && Joins(r2, initial, stage2, final)
    ensures r1 == r2
  {
    AscendingUnique(Numbers(r1), Numbers(r2));
    forall k | 0 <= k < |r1| ensures r1[k] == r2[k] {
      assert Numbers(r1)[k] == Numbers(r2)[k];
    }
  }

  /** With no final costs there is nothing to report. */
  lemma NoFinalNoResults(results: seq<CostDifference>, initial: map<nat, real>, stage2: map<nat, real>)
    requires Joins(results, initial, stage2, map[])
    ensures results == []
  {
    FirstIsMember(Numbers(results));
  }
}
