/**
 * `rulesInfo_histogram.py`: which rule files `load_all_rule_files` picks up
 * (a glob pattern), the order it loads them in (the natural key), the stage
 * and iteration it reads from each file name, and the pivot table that
 * `create_rule_application_heatmap` sums before plotting.
 *
 * A directory listing is a sequence of names; the CSV files a script can read
 * are a map from path to parsed rows (a missing or empty file cannot be read).
 */
module RuleHeatmap {
  import opened Wrappers
  import opened Text
  import opened OptimizerOutput
  import opened TailWindows
  import opened NaturalOrder
  import opened RuleFileNames

  const RulesDataDir: string := "src/planner/outputs/rules_data"

  /** `f"{query_folder}_data"` under the rules data directory. */
  function RuleFilesBaseDir(queryFolder: string): string
  {
    RulesDataDir + "/" + queryFolder + "_data"
  }

  /** `glob.glob(os.path.join(base_dir, pattern))`: the matching names of the listing, joined to the directory. */
  function RuleFilePaths(queryFolder: string, stage: Option<string>, listing: seq<string>): (paths: seq<string>)
    ensures |paths| <= |listing|
    ensures forall p :: p in paths <==>
              exists name :: name in listing && GlobMatch(RulePattern(stage), name) && p == PathJoin(RuleFilesBaseDir(queryFolder), name)
  {
    if listing == [] then []
    else
      var init := RuleFilePaths(queryFolder, stage, listing[..|listing| - 1]);
      var name := listing[|listing| - 1];
      assert listing == listing[..|listing| - 1] + [name];
      if GlobMatch(RulePattern(stage), name) then init + [PathJoin(RuleFilesBaseDir(queryFolder), name)] else init
  }

  /** A listing in which nothing matches yields no paths. */
  lemma {:induction false} NoMatchNoPaths(queryFolder: string, stage: Option<string>, listing: seq<string>)
    requires forall name :: name in listing ==> !GlobMatch(RulePattern(stage), name)
    ensures RuleFilePaths(queryFolder, stage, listing) == []
  {
    if listing != [] {
      var init := listing[..|listing| - 1];
      assert forall name :: name in init ==> name in listing;
      assert listing[|listing| - 1] in listing;
      NoMatchNoPaths(queryFolder, stage, init);
    }
  }

  // ---------------------------------------------------------------------------
  // Loading the files.

  /** A data frame: its column names and its rows. */
  datatype Frame = Frame(columns: seq<string>, rows: seq<Row>)

  function ExtendRows(rows: seq<Row>, value: string): (r: seq<Row>)
    ensures |r| == |rows| && forall k :: 0 <= k < |r| ==> r[k] == rows[k] + [value]
  {
    if rows == [] then [] else [rows[0] + [value]] + ExtendRows(rows[1..], value)
  }

  /** `df[name] = value`: a new last column holding `value` in every row. */
  function AddColumn(f: Frame, name: string, value: string): Frame
  {
    Frame(f.columns + [name], ExtendRows(f.rows, value))
  }

  /** Lines 33-41: the stage and iteration of the file name, each added only where the frame lacks that column. */
  function TagFrame(path: string, f: Frame): (g: Frame)
    ensures |g.rows| == |f.rows| && |f.columns| <= |g.columns| && g.columns[..|f.columns|] == f.columns
    ensures FindStageIter(path, 0).Some? ==> "Stage" in g.columns && "External_Iteration" in g.columns
    ensures FindStageIter(path, 0).None? || ("Stage" in f.columns && "External_Iteration" in f.columns) ==> g == f
  {
    match FindStageIter(path, 0)
    case None => f
    case Some(pos) =>
      var (st, it) := StageIterAt(path, pos).value;
      var f1 := if "Stage" in f.columns then f else AddColumn(f, "Stage", st);
      assert f1.columns[..|f.columns|] == f.columns;
      var f2 := if "External_Iteration" in f1.columns then f1 else AddColumn(f1, "External_Iteration", it);
      assert f2.columns[..|f1.columns|] == f1.columns;
      f2
  }

  /** An iteration file whose frame has neither column gets both, in this order, from its name. */
  lemma TagIterFile(dir: string, d1: string, d2: string, f: Frame)
    requires forall j :: 0 <= j && j + 6 <= |dir| ==> !OccursAt(dir, j, StagePrefix)
    requires d1 != [] && AllDigits(d1) && d2 != [] && AllDigits(d2)
    requires "Stage" !in f.columns && "External_Iteration" !in f.columns
    ensures var path := dir + "/" + StagePrefix + d1 + IterInfix + d2 + IterFileSuffix;
            TagFrame(path, f) == AddColumn(AddColumn(f, "Stage", d1), "External_Iteration", d2)
  {
    StageIterOfIterFile(dir, d1, d2);
  }

  /** `pd.read_csv` fails on a missing or empty file; otherwise the first row names the columns. */
  predicate Loadable(path: string, files: map<string, seq<Row>>)
  {
    path in files && files[path] != []
  }

  function ReadFrame(path: string, files: map<string, seq<Row>>): Frame
    requires Loadable(path, files)
  {
    Frame(files[path][0], files[path][1..])
  }

  /** The frames of the loop over the sorted paths: each file that loads, tagged, in order. */
  function LoadFrames(paths: seq<string>, files: map<string, seq<Row>>): (frames: seq<Frame>)
    ensures |frames| <= |paths|
  {
    if paths == [] then []
    else
      var init := LoadFrames(paths[..|paths| - 1], files);
      var path := paths[|paths| - 1];
      if Loadable(path, files) then init + [TagFrame(path, ReadFrame(path, files))] else init
  }

  /** No frame is loaded exactly when no path can be read. */
  lemma {:induction false} LoadFramesEmpty(paths: seq<string>, files: map<string, seq<Row>>)
    ensures LoadFrames(paths, files) == [] <==> forall p :: p in paths ==> !Loadable(p, files)
  {
    if paths != [] {
      var init := paths[..|paths| - 1];
      assert paths == init + [paths[|paths| - 1]];
      LoadFramesEmpty(init, files);
    }
  }

  /** What `load_all_rule_files` returns, before the frames are concatenated. */
  function LoadedRuleFiles(queryFolder: string, stage: Option<string>, listing: seq<string>, files: map<string, seq<Row>>)
    : Option<seq<Frame>>
  {
    var paths := RuleFilePaths(queryFolder, stage, listing);
    if paths == [] then None
    else
      var frames := LoadFrames(SortByKey(paths), files);
      if frames == [] then None else Some(frames)
  }

  /** The body of the loop for a file that loads: the columns added from its name. */
  method TagLoaded(file: string, df: Frame) returns (tagged: Frame)
    ensures tagged == TagFrame(file, df)
  {
    tagged := df;
    var found := FindStageIter(file, 0);
    if found.Some? {
      var (fileStage, fileIter) := StageIterAt(file, found.value).value;
      if "Stage" !in tagged.columns {
        tagged := AddColumn(tagged, "Stage", fileStage);
      }
      if "External_Iteration" !in tagged.columns {
        tagged := AddColumn(tagged, "External_Iteration", fileIter);
      }
    }
  }

  /** `load_all_rule_files`, loop and all. */
  method LoadAllRuleFiles(queryFolder: string, stage: Option<string>, listing: seq<string>, files: map<string, seq<Row>>)
    returns (frames: Option<seq<Frame>>)
    ensures frames == LoadedRuleFiles(queryFolder, stage, listing, files)
  {
    var allFiles := RuleFilePaths(queryFolder, stage, listing);
    if allFiles == [] {
      return None;
    }
    allFiles := SortByKey(allFiles);
    var allData: seq<Frame> := [];
    for i := 0 to |allFiles|
      invariant allData == LoadFrames(allFiles[..i], files)
    {
      assert allFiles[..i + 1][..i] == allFiles[..i];
      var file := allFiles[i];
      if Loadable(file, files) {
        var df := TagLoaded(file, ReadFrame(file, files));
        allData := allData + [df];
      }
    }
    assert allFiles[..|allFiles|] == allFiles;
    if allData == [] {
      return None;
    }
    return Some(allData);
  }

  /**
   * `None` exactly when no listed name matches the pattern or none of the
   * matching files can be read; otherwise at most one frame per matching file.
   */
  lemma LoadedRuleFilesNone(queryFolder: string, stage: Option<string>, listing: seq<string>, files: map<string, seq<Row>>)
    ensures var paths := RuleFilePaths(queryFolder, stage, listing);
            var loaded := LoadedRuleFiles(queryFolder, stage, listing, files);
            (loaded.None? <==> forall p :: p in paths ==> !Loadable(p, files)) &&
            (loaded.Some? ==> 0 < |loaded.value| <= |paths|)
  {
    var paths := RuleFilePaths(queryFolder, stage, listing);
    SortByKeySorts(paths);
    LoadFramesEmpty(SortByKey(paths), files);
  }

  /** A directory holding only the optimizer's per-stage rule files yields nothing. */
  lemma OptimizerRuleFilesNotLoaded(queryFolder: string, listing: seq<string>, files: map<string, seq<Row>>)
    requires forall name :: name in listing ==> exists d :: AllDigits(d) && name == StagePrefix + d + IterFileSuffix
    ensures LoadedRuleFiles(queryFolder, None, listing, files).None?
  {
    forall name | name in listing ensures !GlobMatch(RulePattern(None), name) {
      var d :| AllDigits(d) && name == StagePrefix + d + IterFileSuffix;
      OptimizerRuleFileNotMatched(d);
    }
    NoMatchNoPaths(queryFolder, None, listing);
  }

  // ---------------------------------------------------------------------------
  // The pivot of `create_rule_application_heatmap`.

  /** One row of the concatenated frame, read through the four columns the pivot uses. */
  datatype Application = Application(external: string, internal: string, rule: string, count: int)

  /** A pivot cell: (External_Iteration, Internal_Iteration) row, Rule_Name column. */
  type Cell = (string, string, string)

  function CellOf(a: Application): Cell { (a.external, a.internal, a.rule) }

  /** The reference sum: the applications of the records in `cell`, `None` rows excluded. */
  function CellTotal(records: seq<Application>, cell: Cell): int
  {
    if records == [] then 0
    else
      var a := records[|records| - 1];
      CellTotal(records[..|records| - 1], cell) + (if a.rule != "None" && CellOf(a) == cell then a.count else 0)
  }

  /** Some record not named `None` falls in `cell`. */
  predicate HasCell(records: seq<Application>, cell: Cell)
  {
    exists k :: 0 <= k < |records| && records[k].rule != "None" && CellOf(records[k]) == cell
  }

  /** `df[df['Rule_Name'] != 'None'].pivot_table(..., aggfunc='sum')`: the sums of the non-empty cells. */
  function PivotSums(records: seq<Application>): map<Cell, int>
  {
    if records == [] then map[]
    else
      var sums := PivotSums(records[..|records| - 1]);
      var a := records[|records| - 1];
      if a.rule == "None" then sums
      else sums[CellOf(a) := (if CellOf(a) in sums then sums[CellOf(a)] else 0) + a.count]
  }

  /** A cell of the rendered table; `fill_value=0` for a cell no record falls in. */
  function PivotCell(records: seq<Application>, external: string, internal: string, rule: string): int
  {
    var sums := PivotSums(records);
    if (external, internal, rule) in sums then sums[(external, internal, rule)] else 0
  }

  /** The pivot holds a cell exactly when a non-`None` record falls in it, and the cell is that records' sum. */
  lemma {:induction false} PivotSumsAreTotals(records: seq<Application>)
    ensures forall cell :: cell in PivotSums(records) <==> HasCell(records, cell)
    ensures forall cell :: cell in PivotSums(records) ==> PivotSums(records)[cell] == CellTotal(records, cell)
    ensures forall cell :: cell !in PivotSums(records) ==> CellTotal(records, cell) == 0
  {
    if records != [] {
      var init := records[..|records| - 1];
      var a := records[|records| - 1];
      PivotSumsAreTotals(init);
      forall cell ensures HasCell(records, cell) <==> HasCell(init, cell) || (a.rule != "None" && CellOf(a) == cell) {
        if HasCell(records, cell) {
          var k :| 0 <= k < |records| && records[k].rule != "None" && CellOf(records[k]) == cell;
          if k < |init| {
            assert init[k] == records[k];
          }
        }
        if HasCell(init, cell) {
          var k :| 0 <= k < |init| && init[k].rule != "None" && CellOf(init[k]) == cell;
          assert records[k] == init[k];
        }
        if a.rule != "None" && CellOf(a) == cell {
          assert records[|records| - 1] == a;
        }
      }
    }
  }

  /** Every cell of the table is the sum of the applications recorded for it, `None` rows ignored and 0 where there are none. */
  lemma PivotCellIsTotal(records: seq<Application>, external: string, internal: string, rule: string)
    ensures PivotCell(records, external, internal, rule) == CellTotal(records, (external, internal, rule))
  {
    PivotSumsAreTotals(records);
  }

  /** The `None` column never appears: rows without an applied rule are dropped. */
  lemma PivotHasNoNoneColumn(records: seq<Application>, external: string, internal: string)
    ensures (external, internal, "None") !in PivotSums(records)
  {
    PivotSumsAreTotals(records);
  }

  // ---------------------------------------------------------------------------
  // `process_all_queries`.

  /** The folders visited: those ending with `_data` and starting with `q`, in listing order. */
  function RuleDataFolders(entries: seq<string>): (folders: seq<string>)
    ensures forall f :: f in folders <==> f in entries && EndsWith(f, "_data") && StartsWith(f, "q")
  {
    Filter(entries, (f: string) => EndsWith(f, "_data") && StartsWith(f, "q"))
  }

  /** `query_folder.split("_")[0]`. */
  function QueryName(folder: string): (name: string)
    ensures '_' !in name && StartsWith(folder, name)
  {
    BeforeFirst(folder, '_')
  }

  /** The same text around two pieces makes equal strings only when the pieces are equal. */
  lemma ConcatCancel(d: string, x: string, y: string, e: string)
    ensures d + x + e == d + y + e <==> x == y
  {
    if d + x + e == d + y + e {
      assert |x| == |y|;
      assert (d + x + e)[|d|..|d| + |x|] == x;
      assert (d + y + e)[|d|..|d| + |y|] == y;
    }
  }

  /** The folder the optimizer writes rule files to for `<stem>_data.csv` is named `<stem>_data`. */
  lemma OptimizerFolderName(stem: string)
    requires '/' !in stem
    ensures PathStem(QueryDataPath(stem)) == stem + "_data"
    ensures QueryName(stem + "_data") == BeforeFirst(stem, '_')
  {
    QueryDataNames(stem);
    BeforeFirstAppend(stem, "_data", '_');
    assert "_data"[0] == '_';
  }

  /**
   * The folder the optimizer writes for `<stem>_data.csv` is visited when the
   * stem starts with `q`, and its files are looked for in that same folder
   * exactly when the stem has no `_`: otherwise the script looks in
   * `<first piece>_data`.
   */
  lemma OptimizerFolderVisited(stem: string)
    requires StartsWith(stem, "q") && '/' !in stem
    ensures var folder := PathStem(QueryDataPath(stem));
            folder in RuleDataFolders([folder]) &&
            QueryName(folder) == BeforeFirst(stem, '_') &&
            (RuleFilesBaseDir(QueryName(folder)) == RulesDataDir + "/" + folder <==> '_' !in stem)
  {
    OptimizerFolderName(stem);
    var folder := stem + "_data";
    assert folder[..|stem|] == stem && folder[..1] == stem[..1];
    assert folder[|folder| - 5..] == "_data";
    var name := BeforeFirst(stem, '_');
    assert RuleFilesBaseDir(name) == RulesDataDir + "/" + name + "_data";
    assert RulesDataDir + "/" + folder == RulesDataDir + "/" + stem + "_data";
    ConcatCancel(RulesDataDir + "/", name, stem, "_data");
    assert name == stem <==> '_' !in stem;
  }
}
