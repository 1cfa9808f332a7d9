/**
 * The scripts that keep the last rows of a table: `extractor.py` (the header
 * and `rows[-4:]`), `expr_lines_extracter.py` (`df.tail(4)`) and the
 * validated last-four selection of `egg-merges.py`.
 *
 * A CSV file is modelled by its parsed rows. The files a script can see are a
 * map from path to rows, so a missing file is a path the map does not hold.
 */
module TailWindows {
  import opened Wrappers
  import opened Text
  import opened OptimizerOutput

  type Row = seq<string>

  /** Python's `s[-n:]` for `n > 0` (pandas' `tail(n)`): the last `min(n, |s|)` elements, in order. */
  function Tail<T>(s: seq<T>, n: nat): (r: seq<T>)
    requires n > 0
    ensures |r| == if |s| < n then |s| else n
    ensures s == s[..|s| - |r|] + r
  {
    if |s| <= n then s else s[|s| - n..]
  }

  /** The window slides: the tail after appending depends only on the previous tail. */
  lemma TailSnoc<T>(s: seq<T>, x: T, n: nat)
    requires n > 0
    ensures Tail(s + [x], n) == Tail(Tail(s, n) + [x], n)
  {
    if |s| > n {
      assert (s + [x])[|s| + 1 - n..] == s[|s| - n..][1..] + [x];
      assert (s[|s| - n..] + [x])[1..] == s[|s| - n..][1..] + [x];
    }
  }

  // ---------------------------------------------------------------------------
  // extractor.py

  /** `os.path.basename`: the text after the last `/`. */
  function BaseName(path: string): (name: string)
    ensures '/' !in name && EndsWith(path, name)
    ensures |name| < |path| ==> path[|path| - |name| - 1] == '/'
  {
    var i := LastIndexOf(path, '/');
    if i == |path| then path else path[i + 1..]
  }

  predicate AllDots(s: string)
  {
    forall k :: 0 <= k < |s| ==> s[k] == '.'
  }

  /**
   * The root `os.path.splitext` gives for a name without `/`: the text before
   * the last `.`, unless there is no `.` or only dots precede it (a name such
   * as `.profile`), when the name stays whole.
   */
  function SplitextRoot(name: string): (root: string)
    ensures StartsWith(name, root)
    ensures root == name || (!AllDots(root) && name[|root|] == '.' && '.' !in name[|root| + 1..])
  {
    var d := LastIndexOf(name, '.');
    if d == |name| || AllDots(name[..d]) then name else name[..d]
  }

  /** The output file of `extract_last_four`: the input's base name without its extension, plus `_filtered.csv`. */
  function FilteredPath(inputFile: string): string
  {
    "src/planner/outputs/filtered_query_data/" + SplitextRoot(BaseName(inputFile)) + "_filtered.csv"
  }

  /** The base name of `dir/name` is `name`. */
  lemma BaseNameUnder(dir: string, name: string)
    requires '/' !in name
    ensures BaseName(dir + "/" + name) == name
  {
    var p := dir + "/" + name;
    assert p[|dir|] == '/';
    assert forall k :: |dir| < k < |p| ==> p[k] == name[k - |dir| - 1];
    assert LastIndexOf(p, '/') == |dir|;
  }

  /** The root of `<stem>_data.csv` is `<stem>_data`. */
  lemma SplitextRootOfDataCsv(stem: string)
    ensures SplitextRoot(stem + "_data.csv") == stem + "_data"
  {
    var name := stem + "_data.csv";
    assert name[|name| - 4] == '.';
    assert LastIndexOf(name, '.') == |name| - 4;
    assert name[..|name| - 4] == stem + "_data";
    assert name[..|name| - 4][|stem|] == '_';
  }

  /** For the optimiser's output file `query_data/<stem>_data.csv` the filtered copy is `<stem>_data_filtered.csv`. */
  lemma FilteredPathOfQueryData(stem: string)
    requires '/' !in stem
    ensures FilteredPath(QueryDataPath(stem)) == "src/planner/outputs/filtered_query_data/" + (stem + "_data") + "_filtered.csv"
  {
    assert QueryDataPath(stem) == "src/planner/outputs/query_data" + "/" + (stem + "_data.csv");
    BaseNameUnder("src/planner/outputs/query_data", stem + "_data.csv");
    SplitextRootOfDataCsv(stem);
  }

  /** What `extract_last_four` does with an input file. */
  datatype ExtractOutcome =
    | MissingInput
    | NoHeader
    | Extracted(outputFile: string, rows: seq<Row>)

  /**
   * `extract_last_four`: a missing input returns before anything is written;
   * a file without a header line raises at `next(reader)`; otherwise the
   * header and the last four data rows (all of them when there are fewer)
   * go to the filtered file.
   */
  function ExtractLastFour(inputFile: string, files: map<string, seq<Row>>): (out: ExtractOutcome)
    ensures out.MissingInput? <==> inputFile !in files
    ensures out.NoHeader? <==> inputFile in files && files[inputFile] == []
    ensures out.Extracted? ==>
              var rows := files[inputFile];
              var kept := |out.rows| - 1;
              out.outputFile == FilteredPath(inputFile) &&
              |out.rows| >= 1 && out.rows[0] == rows[0] &&
              kept == (if |rows| - 1 < 4 then |rows| - 1 else 4) &&
              out.rows[1..] == rows[|rows| - kept..]
  {
    if inputFile !in files then MissingInput
    else if files[inputFile] == [] then NoHeader
    else
      var rows := files[inputFile];
      Extracted(FilteredPath(inputFile), [rows[0]] + Tail(rows[1..], 4))
  }

  // ---------------------------------------------------------------------------
  // expr_lines_extracter.py

  /** The queries `main` filters, in order. */
  const ExpressionQueries: seq<string> := ["q2", "q5", "q7", "q8", "q9"]

  /** `os.path.join("src", "planner", "outputs", "expressions", query, "expressions.csv")`. */
  function ExpressionsInputPath(query: string): string
  {
    PathJoin(PathJoin("src/planner/outputs/expressions", query), "expressions.csv")
  }

  function ExpressionsFilteredDir(query: string): string
  {
    PathJoin("src/planner/outputs/expressions/filtered", query)
  }

  function ExpressionsFilteredPath(query: string): string
  {
    PathJoin(ExpressionsFilteredDir(query), "expressions_filtered.csv")
  }

  /** The expressions file the optimiser appends to is the one `filter_last_4_rows` reads for the query. */
  lemma ExpressionsFeedFilter(stem: string)
    requires '/' !in stem
    ensures ExpressionsPath(QueryDataPath(stem)) == ExpressionsInputPath(BeforeFirst(stem, '_'))
  {
    QueryDataNames(stem);
  }

  /** What `filter_last_4_rows` does for one query. */
  datatype FilterOutcome =
    | InputNotFound(inputCsv: string)
    /** The output directory was created, then `read_csv` raised on a file without columns. */
    | NoColumns(outputDir: string)
    | Filtered(outputDir: string, outputCsv: string, header: Row, rows: seq<Row>)

  /**
   * `filter_last_4_rows`: a missing input returns before the output directory
   * is created; for an empty file the directory is created and then `read_csv`
   * raises; otherwise the header line names the columns and the last four rows
   * are written.
   */
  function FilterLastFourRows(query: string, files: map<string, seq<Row>>): (out: FilterOutcome)
    ensures out.InputNotFound? <==> ExpressionsInputPath(query) !in files
    ensures out.NoColumns? <==> ExpressionsInputPath(query) in files && files[ExpressionsInputPath(query)] == []
    ensures out.NoColumns? ==> out.outputDir == ExpressionsFilteredDir(query)
    ensures out.Filtered? ==>
              var table := files[ExpressionsInputPath(query)];
              out.outputDir == ExpressionsFilteredDir(query) && out.outputCsv == ExpressionsFilteredPath(query) &&
              table != [] && out.header == table[0] &&
              |out.rows| == (if |table| - 1 < 4 then |table| - 1 else 4) &&
              table == table[..|table| - |out.rows|] + out.rows
  {
    var inputCsv := ExpressionsInputPath(query);
    if inputCsv !in files then InputNotFound(inputCsv)
    else if files[inputCsv] == [] then NoColumns(ExpressionsFilteredDir(query))
    else
      var table := files[inputCsv];
      TailOfDataRows(table, 4);
      Filtered(ExpressionsFilteredDir(query), ExpressionsFilteredPath(query), table[0], Tail(table[1..], 4))
  }

  /** The last `n` data rows of a table, the header left aside, are a suffix of the whole table. */
  lemma TailOfDataRows<T>(table: seq<T>, n: nat)
    requires table != [] && n > 0
    ensures var r := Tail(table[1..], n);
            |r| == (if |table| - 1 < n then |table| - 1 else n) && table == table[..|table| - |r|] + r
  {
    var s := table[1..];
    var r := Tail(s, n);
    assert s == s[..|s| - |r|] + r;
    assert r == s[|s| - |r|..];
    assert table == [table[0]] + s;
  }

  /**
   * The outcomes of a loop up to and including the first one that raises:
   * an uncaught exception leaves the loop, so nothing after it happens.
   */
  function UntilRaise<T>(outs: seq<T>, raises: T -> bool): (r: seq<T>)
    ensures |r| <= |outs| && r == outs[..|r|]
    ensures forall k :: 0 <= k < |r| - 1 ==> !raises(r[k])
    ensures |r| < |outs| ==> r != [] && raises(r[|r| - 1])
  {
    if outs == [] then []
    else if raises(outs[0]) then [outs[0]]
    else [outs[0]] + UntilRaise(outs[1..], raises)
  }

  /**
   * `main`'s loop over the queries: one outcome per query, in the order given,
   * until the first query whose `read_csv` raises; the exception leaves the loop,
   * so no later query is filtered.
   */
  function FilterEach(queries: seq<string>, files: map<string, seq<Row>>): (outs: seq<FilterOutcome>)
    ensures |outs| <= |queries|
    ensures forall k :: 0 <= k < |outs| ==> outs[k] == FilterLastFourRows(queries[k], files)
    ensures forall k :: 0 <= k < |outs| - 1 ==> !outs[k].NoColumns?
    ensures |outs| < |queries| ==> outs != [] && outs[|outs| - 1].NoColumns?
  {
    UntilRaise(FilterAll(queries, files), ReadCsvRaised)
  }

  /** Every query's outcome, were no exception to stop the loop. */
  function FilterAll(queries: seq<string>, files: map<string, seq<Row>>): (all: seq<FilterOutcome>)
    ensures |all| == |queries|
    ensures forall k :: 0 <= k < |all| ==> all[k] == FilterLastFourRows(queries[k], files)
  {
    seq(|queries|, k requires 0 <= k < |queries| => FilterLastFourRows(queries[k], files))
  }

  /** The outcome in which `read_csv` raised. */
  predicate ReadCsvRaised(o: FilterOutcome)
  {
    o.NoColumns?
  }

  /** `main`: the five queries, in order. */
  function FilterMain(files: map<string, seq<Row>>): seq<FilterOutcome>
  {
    FilterEach(ExpressionQueries, files)
  }

  /** With no empty expressions file among the queries', every query is filtered, in order. */
  lemma FilterEachComplete(queries: seq<string>, files: map<string, seq<Row>>)
    requires forall q :: q in queries && ExpressionsInputPath(q) in files ==> files[ExpressionsInputPath(q)] != []
    ensures |FilterEach(queries, files)| == |queries|
  {
    FilterEachStopsAtEmpty(queries, files);
  }

  /** When `main`'s loop stops early, the last query filtered has an empty expressions file. */
  lemma FilterEachStopsAtEmpty(queries: seq<string>, files: map<string, seq<Row>>)
    ensures var outs := FilterEach(queries, files);
            |outs| < |queries| ==>
              var q := queries[|outs| - 1];
              q in queries && ExpressionsInputPath(q) in files && files[ExpressionsInputPath(q)] == []
  {
    var outs := FilterEach(queries, files);
    if |outs| < |queries| {
      assert outs != [];
      assert queries[|outs| - 1] in queries;
    }
  }

  /** Distinct queries without `/` write distinct filtered files. */
  lemma FilterEachDistinctOutputs(queries: seq<string>, files: map<string, seq<Row>>)
    requires forall j, k :: 0 <= j < k < |queries| ==> queries[j] != queries[k]
    requires forall q :: q in queries ==> q != [] && '/' !in q
    ensures var outs := FilterEach(queries, files);
            forall j, k :: 0 <= j < k < |outs| && outs[j].Filtered? && outs[k].Filtered? ==> outs[j].outputCsv != outs[k].outputCsv
  {
    var outs := FilterEach(queries, files);
    forall j, k | 0 <= j < k < |outs| && outs[j].Filtered? && outs[k].Filtered?
      ensures outs[j].outputCsv != outs[k].outputCsv
    {
      assert queries[j] in queries && queries[k] in queries;
      FilteredPathInjective(queries[j], queries[k]);
    }
  }

  /** Distinct queries have distinct filtered files. */
  lemma FilteredPathInjective(a: string, b: string)
    requires a != [] && '/' !in a && b != [] && '/' !in b
    ensures ExpressionsFilteredPath(a) == ExpressionsFilteredPath(b) ==> a == b
  {
    FilteredPathOfQuery(a);
    FilteredPathOfQuery(b);
    MiddleOfJoin("src/planner/outputs/expressions/filtered", a, b, "expressions_filtered.csv");
  }

  /** `x/a/y` and `x/b/y` are the same path only when `a` and `b` are the same piece. */
  lemma MiddleOfJoin(x: string, a: string, b: string, y: string)
    ensures x + "/" + a + "/" + y == x + "/" + b + "/" + y ==> a == b
  {
    var pa := x + "/" + a + "/" + y;
    var pb := x + "/" + b + "/" + y;
    if pa == pb {
      assert |a| == |b|;
      assert pa[|x| + 1..|x| + 1 + |a|] == a;
      assert pb[|x| + 1..|x| + 1 + |b|] == b;
    }
  }

  /**
   * `main`: unless one of the five expressions files is empty, all five
   * queries are filtered, in order, each to its own file.
   */
  lemma FilterMainOutcomes(files: map<string, seq<Row>>)
    ensures var outs := FilterMain(files);
            |outs| <= 5 && forall k :: 0 <= k < |outs| ==> outs[k] == FilterLastFourRows(ExpressionQueries[k], files)
    ensures (forall q :: q in ExpressionQueries && ExpressionsInputPath(q) in files ==> files[ExpressionsInputPath(q)] != []) ==>
              |FilterMain(files)| == 5
    ensures var outs := FilterMain(files);
            forall j, k :: 0 <= j < k < |outs| && outs[j].Filtered? && outs[k].Filtered? ==> outs[j].outputCsv != outs[k].outputCsv
  {
    if forall q :: q in ExpressionQueries && ExpressionsInputPath(q) in files ==> files[ExpressionsInputPath(q)] != [] {
      FilterEachComplete(ExpressionQueries, files);
    }
    ExpressionQueriesShape();
    FilterEachDistinctOutputs(ExpressionQueries, files);
  }

  lemma ExpressionQueriesShape()
    ensures forall j, k :: 0 <= j < k < |ExpressionQueries| ==> ExpressionQueries[j] != ExpressionQueries[k]
    ensures forall q :: q in ExpressionQueries ==> q != [] && '/' !in q
  {
    var qs := ExpressionQueries;
    assert qs[0][1] == '2' && qs[1][1] == '5' && qs[2][1] == '7' && qs[3][1] == '8' && qs[4][1] == '9';
  }

  /** Each query's filtered copy goes to its own directory under `expressions/filtered`. */
  lemma FilteredPathOfQuery(query: string)
    requires query != [] && '/' !in query
    ensures ExpressionsFilteredPath(query) == "src/planner/outputs/expressions/filtered" + "/" + query + "/" + "expressions_filtered.csv"
  {
    PathJoinTwice("src/planner/outputs/expressions/filtered", query, "expressions_filtered.csv");
  }

  // ---------------------------------------------------------------------------
  // egg-merges.py

  /** The query folder with every `_data` removed, the name of the graph folder. */
  function MergeOutputFolder(queryFolder: string): string
  {
    ReplaceAll(queryFolder, "_data", "")
  }

  /** For a folder `<stem>_data` whose stem has no `_`, the graph folder is the stem. */
  lemma {:induction false} MergeOutputFolderOfDataFolder(stem: string)
    requires forall i: nat :: !OccursAt(stem, i, "_data")
    ensures MergeOutputFolder(stem + "_data") == stem
  {
    var s := stem + "_data";
    if stem == [] {
      assert s[..5] == "_data";
      assert ReplaceAll(s[5..], "_data", "") == [];
    } else {
      if |stem| >= 5 {
        assert stem[0..5] == s[..5];
        assert !OccursAt(stem, 0, "_data");
      } else {
        assert s[|stem|] == '_' != "_data"[|stem|];
      }
      assert s[..5] != "_data";
      assert s[1..] == stem[1..] + "_data";
      forall i: nat ensures !OccursAt(stem[1..], i, "_data") {
        assert !OccursAt(stem, i + 1, "_data");
        if i + 5 <= |stem[1..]| {
          assert stem[1..][i..i + 5] == stem[i + 1..i + 6];
        }
      }
      MergeOutputFolderOfDataFolder(stem[1..]);
      assert stem == [stem[0]] + stem[1..];
    }
  }

  function EggMergesInputPath(queryFolder: string): string
  {
    "src/planner/outputs/egg-merges/" + queryFolder + "/egg_merges.csv"
  }

  function MergeGraphDir(queryFolder: string): string
  {
    "src/planner/outputs/graphs/egg-merges/" + MergeOutputFolder(queryFolder)
  }

  /** The merges file the optimiser appends to is the one the histogram of folder `<stem>_data` reads. */
  lemma EggMergesFeedHistogram(stem: string)
    requires '/' !in stem
    ensures EggMergesPath(QueryDataPath(stem)) == EggMergesInputPath(stem + "_data")
  {
    QueryDataNames(stem);
  }

  /** The folders `process_all_queries` visits: those starting with `q`, in listing order. */
  function MergeQueryFolders(entries: seq<string>): (folders: seq<string>)
    ensures forall f :: f in folders <==> f in entries && StartsWith(f, "q")
  {
    Filter(entries, (f: string) => StartsWith(f, "q"))
  }

  /**
   * Python's `int(s)` on an optionally signed run of decimal digits; any
   * other text raises `ValueError`.
   */
  function ParseInt(s: string): (r: Option<int>)
    ensures r.Some? <==> (s != [] && AllDigits(s)) || (|s| > 1 && (s[0] == '-' || s[0] == '+') && AllDigits(s[1..]))
  {
    if s != [] && AllDigits(s) then Some(ParseNat(s))
    else if |s| > 1 && s[0] == '-' && AllDigits(s[1..]) then Some(-(ParseNat(s[1..]) as int))
    else if |s| > 1 && s[0] == '+' && AllDigits(s[1..]) then Some(ParseNat(s[1..]))
    else None
  }

  /** The counters the optimiser writes with `to_string` read back as themselves. */
  lemma ParseIntOfNat(n: nat)
    ensures ParseInt(NatToString(n)) == Some(n)
  {
    ParseNatToString(n);
  }

  /** The four series of the histogram: stage, merge count, unique nodes (hc size), classes. */
  datatype MergeSeries = MergeSeries(stages: seq<int>, mergeCounts: seq<int>, uniqueNodes: seq<int>, numClasses: seq<int>)

  predicate IsLong(row: Row) { |row| >= 4 }

  /** The first four fields of a row all convert with `int`. */
  predicate Numeric(row: Row)
    requires IsLong(row)
  {
    ParseInt(row[0]).Some? && ParseInt(row[1]).Some? && ParseInt(row[2]).Some? && ParseInt(row[3]).Some?
  }

  /** The rows the loop does not skip. */
  function LongRows(rows: seq<Row>): (long: seq<Row>)
    ensures forall k :: 0 <= k < |long| ==> IsLong(long[k])
  {
    var long := Filter(rows, IsLong);
    assert forall k :: 0 <= k < |long| ==> long[k] in long;
    long
  }

  predicate AllNumeric(long: seq<Row>)
    requires forall k :: 0 <= k < |long| ==> IsLong(long[k])
  {
    forall k :: 0 <= k < |long| ==> Numeric(long[k])
  }

  /** The series with one more row's converted fields appended. */
  function AppendRow(acc: MergeSeries, row: Row): MergeSeries
    requires IsLong(row) && Numeric(row)
  {
    MergeSeries(acc.stages + [ParseInt(row[0]).value], acc.mergeCounts + [ParseInt(row[1]).value],
                acc.uniqueNodes + [ParseInt(row[2]).value], acc.numClasses + [ParseInt(row[3]).value])
  }

  /**
   * The loop over the selected rows: rows with fewer than four fields are
   * skipped, the others append their four converted fields; a field that is
   * not a number raises, and nothing is plotted.
   */
  function SeriesOf(rows: seq<Row>): Option<MergeSeries>
  {
    if rows == [] then Some(MergeSeries([], [], [], []))
    else
      var row := rows[|rows| - 1];
      match SeriesOf(rows[..|rows| - 1])
      case None => None
      case Some(acc) =>
        if !IsLong(row) then Some(acc)
        else if !Numeric(row) then None
        else Some(AppendRow(acc, row))
  }

  /** The series column `c` holds: column 0 the stages, 1 the merge counts, 2 the unique nodes, 3 the classes. */
  function Column(series: MergeSeries, c: nat): seq<int>
    requires c < 4
  {
    if c == 0 then series.stages else if c == 1 then series.mergeCounts
    else if c == 2 then series.uniqueNodes else series.numClasses
  }

  /** Every series has one entry per row of `long`, in order, each read from that row's own column. */
  predicate ReadFrom(series: MergeSeries, long: seq<Row>)
    requires forall k :: 0 <= k < |long| ==> IsLong(long[k])
    requires AllNumeric(long)
  {
    forall c :: 0 <= c < 4 ==>
      |Column(series, c)| == |long| &&
      forall k :: 0 <= k < |long| ==> Column(series, c)[k] == ParseInt(long[k][c]).value
  }

  lemma ReadFromAppendRow(acc: MergeSeries, long: seq<Row>, row: Row)
    requires forall k :: 0 <= k < |long| ==> IsLong(long[k])
    requires AllNumeric(long) && ReadFrom(acc, long)
    requires IsLong(row) && Numeric(row)
    ensures AllNumeric(long + [row]) && ReadFrom(AppendRow(acc, row), long + [row])
  {
    var next := long + [row];
    var series := AppendRow(acc, row);
    assert forall k :: 0 <= k < |long| ==> next[k] == long[k];
    assert next[|long|] == row;
    forall c | 0 <= c < 4
      ensures |Column(series, c)| == |next|
      ensures forall k :: 0 <= k < |next| ==> Column(series, c)[k] == ParseInt(next[k][c]).value
    {
      assert Column(series, c) == Column(acc, c) + [ParseInt(row[c]).value];
    }
  }

  /**
   * The series exist exactly when every row that is not skipped is numeric;
   * then all four have one entry per such row, in order, taken from its own
   * column.
   */
  lemma {:induction false} SeriesShape(rows: seq<Row>)
    ensures SeriesOf(rows).Some? <==> AllNumeric(LongRows(rows))
    ensures SeriesOf(rows).Some? ==> ReadFrom(SeriesOf(rows).value, LongRows(rows))
  {
    if rows != [] {
      var init := rows[..|rows| - 1];
      var row := rows[|rows| - 1];
      assert rows == init + [row];
      SeriesShape(init);
      FilterAppend(init, [row], IsLong);
      var before := LongRows(init);
      if IsLong(row) {
        assert Filter([row], IsLong) == [row];
        assert LongRows(rows) == before + [row];
        if SeriesOf(init).Some? && Numeric(row) {
          ReadFromAppendRow(SeriesOf(init).value, before, row);
        } else if SeriesOf(init).Some? {
          assert LongRows(rows)[|before|] == row;
        } else {
          assert !AllNumeric(before);
          var k :| 0 <= k < |before| && !Numeric(before[k]);
          assert LongRows(rows)[k] == before[k];
        }
      } else {
        assert Filter([row], IsLong) == [];
        assert LongRows(rows) == before;
      }
    }
  }

  /** Once a row has raised, the later rows do not matter. */
  lemma {:induction false} SeriesOfNoneStays(rows: seq<Row>, i: nat)
    requires i <= |rows| && SeriesOf(rows[..i]).None?
    ensures SeriesOf(rows).None?
    decreases |rows| - i
  {
    if i < |rows| {
      assert rows[..i + 1][..i] == rows[..i];
      SeriesOfNoneStays(rows, i + 1);
    } else {
      assert rows[..i] == rows;
    }
  }

  /** The loop of `create_merge_histogram` over `last_four`, appending into four lists. */
  method CollectSeries(lastFour: seq<Row>) returns (result: Option<MergeSeries>)
    ensures result == SeriesOf(lastFour)
  {
    var stages: seq<int> := [];
    var mergeCounts: seq<int> := [];
    var uniqueNodes: seq<int> := [];
    var numClasses: seq<int> := [];
    var i := 0;
    while i < |lastFour|
      invariant i <= |lastFour|
      invariant SeriesOf(lastFour[..i]) == Some(MergeSeries(stages, mergeCounts, uniqueNodes, numClasses))
    {
      var row := lastFour[i];
      assert lastFour[..i + 1][..i] == lastFour[..i];
      if |row| < 4 {
        i := i + 1;
        continue;
      }
      var stage := ParseInt(row[0]);
      var mergeCount := ParseInt(row[1]);
      var uniqueNode := ParseInt(row[2]);
      var numClass := ParseInt(row[3]);
      if stage.None? || mergeCount.None? || uniqueNode.None? || numClass.None? {
        SeriesOfNoneStays(lastFour, i + 1);
        return None;
      }
      stages := stages + [stage.value];
      mergeCounts := mergeCounts + [mergeCount.value];
      uniqueNodes := uniqueNodes + [uniqueNode.value];
      numClasses := numClasses + [numClass.value];
      i := i + 1;
    }
    assert lastFour[..i] == lastFour;
    result := Some(MergeSeries(stages, mergeCounts, uniqueNodes, numClasses));
  }

  /** What `create_merge_histogram` does with a query folder. */
  datatype MergeOutcome =
    | MergesNotFound
    | InvalidHeader
    | NotEnoughData
    | NotANumber
    | Plotted(series: MergeSeries)

  /**
   * `create_merge_histogram`: a missing input returns; a missing header, or
   * one with fewer than four fields, aborts; fewer than four data rows abort;
   * otherwise the last four rows are read into the series.
   */
  function MergeHistogram(queryFolder: string, files: map<string, seq<Row>>): MergeOutcome
  {
    var inputFile := EggMergesInputPath(queryFolder);
    if inputFile !in files then MergesNotFound
    else
      var rows := files[inputFile];
      if rows == [] || |rows[0]| < 4 then InvalidHeader
      else if |rows| - 1 < 4 then NotEnoughData
      else
        match SeriesOf(Tail(rows[1..], 4))
        case None => NotANumber
        case Some(series) => Plotted(series)
  }

  /**
   * A plot is made only from a file with a four-field header and at least four
   * data rows, and its series have equal lengths of at most four, each entry
   * read from its column of one of the last four rows.
   */
  lemma MergeHistogramPlots(queryFolder: string, files: map<string, seq<Row>>)
    requires MergeHistogram(queryFolder, files).Plotted?
    ensures var rows := files[EggMergesInputPath(queryFolder)];
            var series := MergeHistogram(queryFolder, files).series;
            var long := LongRows(rows[|rows| - 4..]);
            |rows[0]| >= 4 && |rows| - 1 >= 4 &&
            |long| <= 4 && AllNumeric(long) && ReadFrom(series, long)
  {
    var rows := files[EggMergesInputPath(queryFolder)];
    assert Tail(rows[1..], 4) == rows[|rows| - 4..];
    SeriesShape(rows[|rows| - 4..]);
  }

  /** `create_merge_histogram` as the script runs it: the graph directory is made before the input is looked at. */
  method CreateMergeHistogram(queryFolder: string, files: map<string, seq<Row>>)
    returns (outputDir: string, outcome: MergeOutcome)
    ensures outputDir == MergeGraphDir(queryFolder)
    ensures outcome == MergeHistogram(queryFolder, files)
  {
    var outputFolder := MergeOutputFolder(queryFolder);
    var inputFile := "src/planner/outputs/egg-merges/" + queryFolder + "/egg_merges.csv";
    outputDir := "src/planner/outputs/graphs/egg-merges/" + outputFolder;
    if inputFile !in files {
      return outputDir, MergesNotFound;
    }
    var rows := files[inputFile];
    if rows == [] || |rows[0]| < 4 {
      return outputDir, InvalidHeader;
    }
    var data := rows[1..];
    if |data| < 4 {
      return outputDir, NotEnoughData;
    }
    var lastFour := Tail(data, 4);
    var series := CollectSeries(lastFour);
    if series.None? {
      outcome := NotANumber;
    } else {
      outcome := Plotted(series.value);
    }
  }

  /**
   * `process_all_queries`: one histogram per `q` folder, in listing order,
   * until the first folder whose last rows hold a field `int()` rejects; that
   * `ValueError` is caught nowhere, so it ends the loop and the script.
   */
  function MergeAll(entries: seq<string>, files: map<string, seq<Row>>): (outs: seq<MergeOutcome>)
    ensures var folders := MergeQueryFolders(entries);
            |outs| <= |folders| &&
            (forall k :: 0 <= k < |outs| ==> outs[k] == MergeHistogram(folders[k], files)) &&
            (forall k :: 0 <= k < |outs| - 1 ==> !outs[k].NotANumber?) &&
            (|outs| < |folders| ==> outs != [] && outs[|outs| - 1].NotANumber?)
  {
    UntilRaise(MergeEach(MergeQueryFolders(entries), files), IntRaised)
  }

  /** Every folder's histogram, were no exception to stop the loop. */
  function MergeEach(folders: seq<string>, files: map<string, seq<Row>>): (all: seq<MergeOutcome>)
    ensures |all| == |folders|
    ensures forall k :: 0 <= k < |all| ==> all[k] == MergeHistogram(folders[k], files)
  {
    seq(|folders|, k requires 0 <= k < |folders| => MergeHistogram(folders[k], files))
  }

  /** The outcome in which `int()` raised. */
  predicate IntRaised(o: MergeOutcome)
  {
    o.NotANumber?
  }

  /** When no `q` folder's histogram raises, every `q` folder is handled. */
  lemma MergeAllComplete(entries: seq<string>, files: map<string, seq<Row>>)
    requires forall f :: f in MergeQueryFolders(entries) ==> !MergeHistogram(f, files).NotANumber?
    ensures |MergeAll(entries, files)| == |MergeQueryFolders(entries)|
  {
    MergeAllStopsAtRaise(entries, files);
  }

  /** When the loop stops early, the last folder handled is a `q` entry whose histogram raised. */
  lemma MergeAllStopsAtRaise(entries: seq<string>, files: map<string, seq<Row>>)
    ensures var outs := MergeAll(entries, files);
            var folders := MergeQueryFolders(entries);
            |outs| < |folders| ==>
              var f := folders[|outs| - 1];
              f in folders && f in entries && StartsWith(f, "q") && MergeHistogram(f, files).NotANumber?
  {
    var outs := MergeAll(entries, files);
    var folders := MergeQueryFolders(entries);
    if |outs| < |folders| {
      assert outs != [];
      assert folders[|outs| - 1] in folders;
    }
  }
}
