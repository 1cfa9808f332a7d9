/**
 * `classes_data_extractor.py`: for stages 0 to 3 of one query, the
 * `Class_ID` and `Node_Count` columns of the class-details file the
 * optimizer wrote, copied under a fresh two-column header.
 *
 * A CSV file is the sequence of rows `csv.reader` yields; the files a run can
 * see are a map from path to rows. The script catches nothing: the first
 * stage that raises ends the run, after the earlier stages were written.
 */
module ClassesExtractor {
  import opened Wrappers
  import opened Text
  import TailWindows
  import opened OptimizerOutput
  import opened EgraphStats

  type Row = TailWindows.Row

  /** `range(4)`, as the f-strings print it. */
  const StageNames: seq<string> := ["0", "1", "2", "3"]

  const OutputHeader: Row := ["Class_ID", "Node_Count"]

  function OutputDir(queryFolder: string): string
  {
    "src/planner/outputs/filtered_class_data/query_" + queryFolder
  }

  function InputPath(queryFolder: string, stage: string): string
  {
    "src/planner/outputs/data_classes/" + queryFolder + "/stage_" + stage + "_classes.csv"
  }

  function OutputPath(queryFolder: string, stage: string): string
  {
    OutputDir(queryFolder) + "/stage" + stage + "_filtered.csv"
  }

  /** Whether both positions exist in `row`, so that neither `row[ci]` nor `row[ni]` raises `IndexError`. */
  predicate HasBoth(row: Row, ci: nat, ni: nat)
  {
    ci < |row| && ni < |row|
  }

  /**
   * The rows `[row[ci], row[ni]]`, one per input row in order; or the index
   * of the first row too short for one of the positions.
   */
  function Project(rows: seq<Row>, ci: nat, ni: nat): (r: Result<seq<Row>, nat>)
    ensures r.Ok? ==> |r.value| == |rows| &&
                      forall k :: 0 <= k < |rows| ==> HasBoth(rows[k], ci, ni) && r.value[k] == [rows[k][ci], rows[k][ni]]
    ensures r.Err? ==> r.error < |rows| && !HasBoth(rows[r.error], ci, ni) &&
                       forall k :: 0 <= k < r.error ==> HasBoth(rows[k], ci, ni)
  {
    if rows == [] then Ok([])
    else
      var init := rows[..|rows| - 1];
      var row := rows[|rows| - 1];
      assert forall k :: 0 <= k < |init| ==> init[k] == rows[k];
      match Project(init, ci, ni)
      case Err(k) => Err(k)
      case Ok(data) =>
        if HasBoth(row, ci, ni) then Ok(data + [[row[ci], row[ni]]]) else Err(|init|)
  }

  /** The `for row in reader` loop: appends each projected row, and stops at the first that raises. */
  method ProjectRows(rows: seq<Row>, ci: nat, ni: nat) returns (r: Result<seq<Row>, nat>)
    ensures r == Project(rows, ci, ni)
  {
    var classData: seq<Row> := [];
    for k := 0 to |rows|
      invariant |classData| == k
      invariant forall j :: 0 <= j < k ==> HasBoth(rows[j], ci, ni) && classData[j] == [rows[j][ci], rows[j][ni]]
    {
      var row := rows[k];
      if !HasBoth(row, ci, ni) {
        ghost var p := Project(rows, ci, ni);
        assert p.Err? ==> p.error == k;
        return Err(k);
      }
      classData := classData + [[row[ci], row[ni]]];
    }
    ghost var p := Project(rows, ci, ni);
    assert p.Ok? ==> p.value == classData;
    return Ok(classData);
  }

  /** Why a stage ends the run. */
  datatype Failure =
    | NoHeader(path: string)
    | MissingColumn(path: string, column: string)
    | ShortRow(path: string, row: nat)

  /** What one stage does: nothing, writes a file, or raises. */
  datatype StageResult = Skipped | Saved(path: string, table: seq<Row>) | Raised(failure: Failure)

  /** One stage of `extract_all_stages_classes`, from its input file to its output table. */
  function StageOf(queryFolder: string, files: map<string, seq<Row>>, stage: string): StageResult
  {
    var inputFile := InputPath(queryFolder, stage);
    if inputFile !in files then Skipped
    else
      var rows := files[inputFile];
      if rows == [] then Raised(NoHeader(inputFile))
      else
        match FirstIndex(rows[0], "Class_ID")
        case None => Raised(MissingColumn(inputFile, "Class_ID"))
        case Some(ci) =>
          match FirstIndex(rows[0], "Node_Count")
          case None => Raised(MissingColumn(inputFile, "Node_Count"))
          case Some(ni) =>
            match Project(rows[1..], ci, ni)
            case Err(k) => Raised(ShortRow(inputFile, k))
            case Ok(classData) => Saved(OutputPath(queryFolder, stage), [OutputHeader] + classData)
  }

  /** The files written, in order, and the failure that ended the run early, if any. */
  function Extraction(queryFolder: string, files: map<string, seq<Row>>, stages: seq<string>): (seq<(string, seq<Row>)>, Option<Failure>)
  {
    if stages == [] then ([], None)
    else
      var rest := Extraction(queryFolder, files, stages[1..]);
      match StageOf(queryFolder, files, stages[0])
      case Skipped => rest
      case Saved(path, table) => ([(path, table)] + rest.0, rest.1)
      case Raised(f) => ([], Some(f))
  }

  /** The run from stage `i` on: stage `i`'s result in front of the run from the next stage. */
  lemma ExtractionFrom(queryFolder: string, files: map<string, seq<Row>>, stages: seq<string>, i: nat)
    requires i < |stages|
    ensures var rest := Extraction(queryFolder, files, stages[i + 1..]);
            Extraction(queryFolder, files, stages[i..]) ==
              match StageOf(queryFolder, files, stages[i])
              case Skipped => rest
              case Saved(path, table) => ([(path, table)] + rest.0, rest.1)
              case Raised(f) => ([], Some(f))
  {
    assert stages[i..][0] == stages[i] && stages[i..][1..] == stages[i + 1..];
  }

  /** `extract_all_stages_classes`: stages 0 to 3. */
  method ExtractAllStagesClasses(queryFolder: string, files: map<string, seq<Row>>)
    returns (written: seq<(string, seq<Row>)>, failure: Option<Failure>)
    ensures (written, failure) == Extraction(queryFolder, files, StageNames)
  {
    written, failure := ExtractStages(queryFolder, files, StageNames);
  }

  /** The stage loop, writing each stage's table before moving on to the next. */
  method ExtractStages(queryFolder: string, files: map<string, seq<Row>>, stages: seq<string>)
    returns (written: seq<(string, seq<Row>)>, failure: Option<Failure>)
    ensures (written, failure) == Extraction(queryFolder, files, stages)
  {
    written := [];
    assert stages[0..] == stages;
    assert [] + Extraction(queryFolder, files, stages).0 == Extraction(queryFolder, files, stages).0;
    for i := 0 to |stages|
      invariant Extraction(queryFolder, files, stages).0 == written + Extraction(queryFolder, files, stages[i..]).0
      invariant Extraction(queryFolder, files, stages).1 == Extraction(queryFolder, files, stages[i..]).1
    {
      var stage := stages[i];
      ExtractionFrom(queryFolder, files, stages, i);
      ghost var result := StageOf(queryFolder, files, stage);
      var inputFile := InputPath(queryFolder, stage);
      if inputFile in files {
        var rows := files[inputFile];
        if rows == [] {
          assert result == Raised(NoHeader(inputFile)) && written + [] == written;
          return written, Some(NoHeader(inputFile));
        }
        var header := rows[0];
        var classIdIdx := FirstIndex(header, "Class_ID");
        if classIdIdx.None? {
          assert result == Raised(MissingColumn(inputFile, "Class_ID")) && written + [] == written;
          return written, Some(MissingColumn(inputFile, "Class_ID"));
        }
        var nodeCountIdx := FirstIndex(header, "Node_Count");
        if nodeCountIdx.None? {
          assert result == Raised(MissingColumn(inputFile, "Node_Count")) && written + [] == written;
          return written, Some(MissingColumn(inputFile, "Node_Count"));
        }
        var classData := ProjectRows(rows[1..], classIdIdx.value, nodeCountIdx.value);
        if classData.Err? {
          assert result == Raised(ShortRow(inputFile, classData.error)) && written + [] == written;
          return written, Some(ShortRow(inputFile, classData.error));
        }
        var saved := (OutputPath(queryFolder, stage), [OutputHeader] + classData.value);
        assert result == Saved(saved.0, saved.1);
        assert written + ([saved] + Extraction(queryFolder, files, stages[i + 1..]).0) ==
               (written + [saved]) + Extraction(queryFolder, files, stages[i + 1..]).0;
        written := written + [saved];
      } else {
        assert result == Skipped;
      }
    }
    assert written + [] == written;
    failure := None;
  }

  // ---------------------------------------------------------------------------
  // Properties.

  /** A saved table is the two-column header over one row per data row, each holding that row's two columns. */
  lemma SavedTableShape(queryFolder: string, files: map<string, seq<Row>>, stage: string)
    requires StageOf(queryFolder, files, stage).Saved?
    ensures var rows := files[InputPath(queryFolder, stage)];
            var table := StageOf(queryFolder, files, stage).table;
            var ci := FirstIndex(rows[0], "Class_ID").value;
            var ni := FirstIndex(rows[0], "Node_Count").value;
            StageOf(queryFolder, files, stage).path == OutputPath(queryFolder, stage) &&
            rows[0][ci] == "Class_ID" && rows[0][ni] == "Node_Count" &&
            |table| == |rows| && table[0] == OutputHeader &&
            forall k :: 1 <= k < |rows| ==> table[k] == [rows[k][ci], rows[k][ni]]
  {
    var rows := files[InputPath(queryFolder, stage)];
    var table := StageOf(queryFolder, files, stage).table;
    var ci := FirstIndex(rows[0], "Class_ID").value;
    var ni := FirstIndex(rows[0], "Node_Count").value;
    var data := Project(rows[1..], ci, ni).value;
    assert table == [OutputHeader] + data;
    forall k | 1 <= k < |rows| ensures table[k] == [rows[k][ci], rows[k][ni]] {
      assert table[k] == data[k - 1] && rows[1..][k - 1] == rows[k];
    }
  }

  /** A stage whose input file is missing writes nothing and raises nothing. */
  lemma MissingFileSkipped(queryFolder: string, files: map<string, seq<Row>>, stage: string)
    requires InputPath(queryFolder, stage) !in files
    ensures StageOf(queryFolder, files, stage) == Skipped
  {
  }

  /**
   * Without a failure, no stage raised and one table was written for each
   * stage whose input exists.
   */
  lemma {:induction false} ExtractionComplete(queryFolder: string, files: map<string, seq<Row>>, stages: seq<string>)
    ensures var (written, failure) := Extraction(queryFolder, files, stages);
            failure.None? ==> (forall s :: s in stages ==> !StageOf(queryFolder, files, s).Raised?) &&
                              |written| == |Present(queryFolder, files, stages)|
  {
    if stages != [] {
      ExtractionComplete(queryFolder, files, stages[1..]);
      assert forall s :: s in stages ==> s == stages[0] || s in stages[1..];
    }
  }

  /** Every table written is the saved result of one of the stages, and a failure is the raise of one of them. */
  lemma {:induction false} ExtractionFromStages(queryFolder: string, files: map<string, seq<Row>>, stages: seq<string>)
    ensures var (written, failure) := Extraction(queryFolder, files, stages);
            |written| <= |stages| &&
            (forall k :: 0 <= k < |written| ==>
               exists s :: s in stages && StageOf(queryFolder, files, s) == Saved(written[k].0, written[k].1)) &&
            (failure.Some? ==> exists s :: s in stages && StageOf(queryFolder, files, s) == Raised(failure.value))
  {
    if stages != [] {
      ExtractionFromStages(queryFolder, files, stages[1..]);
      assert forall s :: s in stages[1..] ==> s in stages;
      assert stages[0] in stages;
    }
  }

  /** The stages whose input file exists. */
  function Present(queryFolder: string, files: map<string, seq<Row>>, stages: seq<string>): seq<string>
  {
    if stages == [] then []
    else (if InputPath(queryFolder, stages[0]) in files then [stages[0]] else []) + Present(queryFolder, files, stages[1..])
  }

  /** The output files of the four stages are distinct, so no stage overwrites another's table. */
  lemma OutputPathsDistinct(queryFolder: string, a: string, b: string)
    requires a in StageNames && b in StageNames && a != b
    ensures OutputPath(queryFolder, a) != OutputPath(queryFolder, b)
  {
    var prefix := OutputDir(queryFolder) + "/stage";
    assert |a| == 1 && |b| == 1;
    assert OutputPath(queryFolder, a)[|prefix|] == a[0];
    assert OutputPath(queryFolder, b)[|prefix|] == b[0];
  }

  // ---------------------------------------------------------------------------
  // Reading what the optimizer wrote.

  /** The two columns of one class of the optimizer's class-details table. */
  function ClassColumns(info: ClassInfo): Row
  {
    [NatToString(info.classId), NatToString(info.nodeCount)]
  }

  /** The optimizer's header has `Class_ID` second and `Node_Count` third. */
  lemma ClassDetailsColumns()
    ensures FirstIndex(ClassDetailsHeader, "Class_ID") == Some(1)
    ensures FirstIndex(ClassDetailsHeader, "Node_Count") == Some(2)
  {
    assert ClassDetailsHeader[0] != "Class_ID" && ClassDetailsHeader[1] == "Class_ID";
    assert ClassDetailsHeader[0] != "Node_Count" && ClassDetailsHeader[1] != "Node_Count" && ClassDetailsHeader[2] == "Node_Count";
  }

  /**
   * A class-details file as `save_class_details` writes it is projected
   * without error, to its classes' ids and node counts in class order.
   */
  lemma ProjectsClassDetails(queryFolder: string, files: map<string, seq<Row>>, stage: string, infos: seq<ClassInfo>)
    requires InputPath(queryFolder, stage) in files && files[InputPath(queryFolder, stage)] == ClassDetailsTable(stage, infos)
    ensures var r := StageOf(queryFolder, files, stage);
            r.Saved? && |r.table| == |infos| + 1 && r.table[0] == OutputHeader &&
            forall k :: 0 <= k < |infos| ==> r.table[k + 1] == ClassColumns(infos[k])
  {
    var rows := ClassDetailsTable(stage, infos);
    ClassDetailsColumns();
    assert rows[0] == ClassDetailsHeader;
    ClassDetailsRowsProject(stage, infos);
    SavedTableShape(queryFolder, files, stage);
  }

  /** Every data row of the class-details table has both columns, and they are the class's id and node count. */
  lemma ClassDetailsRowsProject(stage: string, infos: seq<ClassInfo>)
    ensures var rows := ClassDetailsTable(stage, infos)[1..];
            |rows| == |infos| && Project(rows, 1, 2).Ok? &&
            forall k :: 0 <= k < |infos| ==> [rows[k][1], rows[k][2]] == ClassColumns(infos[k])
  {
    var table := ClassDetailsTable(stage, infos);
    var rows := table[1..];
    forall k | 0 <= k < |rows| ensures HasBoth(rows[k], 1, 2) && [rows[k][1], rows[k][2]] == ClassColumns(infos[k]) {
      assert rows[k] == table[k + 1];
      ClassRowColumns(stage, infos[k]);
    }
    ProjectOkWhenAllHaveBoth(rows, 1, 2);
  }

  lemma ClassRowColumns(stage: string, info: ClassInfo)
    ensures var row := ClassDetailsRow(stage, info);
            HasBoth(row, 1, 2) && [row[1], row[2]] == ClassColumns(info)
  {
  }

  /** Projection succeeds when every row has both columns. */
  lemma ProjectOkWhenAllHaveBoth(rows: seq<Row>, ci: nat, ni: nat)
    ensures (forall k :: 0 <= k < |rows| ==> HasBoth(rows[k], ci, ni)) ==> Project(rows, ci, ni).Ok?
  {
  }

  /**
   * The optimizer writes the class details of `<stem>_data.csv` under the
   * query directory `<text before the first _>`, which is the folder the
   * script reads when given that name.
   */
  lemma ReadsOptimizerClasses(stem: string, stage: string)
    requires '/' !in stem && BeforeFirst(stem, '_') != []
    ensures ClassDetailsPath(QueryDataPath(stem), stage) == InputPath(BeforeFirst(stem, '_'), stage)
  {
    QueryDataNames(stem);
    var dir := BeforeFirst(stem, '_');
    assert '/' !in dir;
    var file := "stage_" + stage + "_classes.csv";
    assert file[0] != '/';
    PathJoinTwice("src/planner/outputs/data_classes", dir, file);
    InputPathPieces(dir, stage);
  }

  lemma InputPathPieces(queryFolder: string, stage: string)
    ensures InputPath(queryFolder, stage) ==
            "src/planner/outputs/data_classes" + "/" + queryFolder + "/" + ("stage_" + stage + "_classes.csv")
  {
  }
}
