/**
 * The file names, directory names and text rows the optimiser's save
 * functions derive in `optimizer.rs`: Rust's `Path::file_name` and
 * `Path::file_stem`, the query directory of `save_class_details` and
 * `save_stage_expression`, the quote escaping of the stored expression, and
 * the header and row of the total-cost table.
 */
module OptimizerOutput {
  import opened Wrappers
  import opened Text

  // ---------------------------------------------------------------------------
  // Paths

  /** `s.split(c)`: the pieces between the occurrences of `c`, at least one. */
  function Split(s: string, c: char): (parts: seq<string>)
    ensures |parts| >= 1
    ensures forall k :: 0 <= k < |parts| ==> c !in parts[k]
    decreases |s|
  {
    var i := IndexOf(s, c);
    if i == |s| then [s] else [s[..i]] + Split(s[i + 1..], c)
  }

  /** The pieces Rust keeps as components: empty pieces (repeated or trailing `/`) and `.` are dropped. */
  function Components(pieces: seq<string>): seq<string>
  {
    if pieces == [] then []
    else
      var last := pieces[|pieces| - 1];
      Components(pieces[..|pieces| - 1]) + (if last == "" || last == "." then [] else [last])
  }

  /** `Path::file_name`: the last component, unless there is none or it is `..`. */
  function FileName(path: string): (name: Option<string>)
    ensures name.Some? ==> '/' !in name.value && name.value != "" && name.value != "." && name.value != ".."
  {
    var comps := Components(Split(path, '/'));
    if comps == [] then None
    else
      var last := comps[|comps| - 1];
      if last == ".." then None
      else
        LastComponentIsPiece(Split(path, '/'));
        Some(last)
  }

  /** Every component is a non-empty piece other than `.`. */
  lemma {:induction false} LastComponentIsPiece(pieces: seq<string>)
    requires forall k :: 0 <= k < |pieces| ==> '/' !in pieces[k]
    ensures forall k :: 0 <= k < |Components(pieces)| ==>
              '/' !in Components(pieces)[k] && Components(pieces)[k] != "" && Components(pieces)[k] != "."
  {
    if pieces != [] {
      var init := pieces[..|pieces| - 1];
      assert forall k :: 0 <= k < |init| ==> init[k] == pieces[k];
      LastComponentIsPiece(init);
    }
  }

  /** The position of the last `c` in `s`, or `|s|` when there is none. */
  function LastIndexOf(s: string, c: char): (r: nat)
    ensures r <= |s|
    ensures r < |s| ==> s[r] == c && forall k :: r < k < |s| ==> s[k] != c
    ensures r == |s| ==> c !in s
  {
    if s == [] then 0
    else if s[|s| - 1] == c then |s| - 1
    else
      var r := LastIndexOf(s[..|s| - 1], c);
      assert forall k :: 0 <= k < |s| - 1 ==> s[..|s| - 1][k] == s[k];
      if r == |s| - 1 then |s| else r
  }

  /**
   * The stem of a file name, as `Path::file_stem` takes it: `..` stays whole;
   * otherwise the text before the last `.`, unless there is no `.` or the only
   * text before it is empty (a name like `.profile`), when the name stays whole.
   */
  function FileStem(name: string): (stem: string)
    ensures StartsWith(name, stem)
    ensures stem == name || (|stem| > 0 && name[|stem|] == '.' && '.' !in name[|stem| + 1..])
  {
    if name == ".." then name
    else
      var i := LastIndexOf(name, '.');
      if i == |name| || i == 0 then name else name[..i]
  }

  /** `Path::new(path).file_stem().unwrap_or_default()`. */
  function PathStem(path: string): string
  {
    match FileName(path)
    case None => ""
    case Some(name) => FileStem(name)
  }

  /**
   * The query directory of `save_class_details` and `save_stage_expression`:
   * the file name (empty when there is none), with every trailing `.csv`
   * removed, up to its first `_`. `split('_').next()` always yields a piece,
   * so the `unknown_query` fallback is never taken and has no counterpart here.
   */
  function QueryDir(outputFile: string): (dir: string)
    ensures '_' !in dir && '/' !in dir
    ensures FileName(outputFile).None? ==> dir == ""
    ensures FileName(outputFile).Some? ==> StartsWith(FileName(outputFile).value, dir)
  {
    var baseFilename := TrimEndMatches(GetOr(FileName(outputFile), ""), ".csv");
    BeforeFirst(baseFilename, '_')
  }

  /**
   * `Path::join`: a piece starting with `/` replaces the path; otherwise a
   * `/` goes between them unless the path is empty or already ends in one.
   * Joining an empty piece therefore leaves a trailing `/`.
   */
  function PathJoin(base: string, piece: string): (p: string)
    ensures EndsWith(p, piece)
    ensures piece != [] && piece[0] == '/' ==> p == piece
    ensures (piece == [] || piece[0] != '/') && base != [] && base[|base| - 1] != '/' ==> p == base + "/" + piece
  {
    if piece != [] && piece[0] == '/' then piece
    else if base != [] && base[|base| - 1] != '/' then base + "/" + piece
    else base + piece
  }

  /** Joining a directory piece without `/` and then a relative file name. */
  lemma PathJoinTwice(dir: string, sub: string, file: string)
    requires dir != [] && dir[|dir| - 1] != '/' && '/' !in sub && file != [] && file[0] != '/'
    ensures PathJoin(PathJoin(dir, sub), file) == if sub == [] then dir + "/" + file else dir + "/" + sub + "/" + file
  {
    if sub != [] {
      assert sub[0] != '/' && sub[|sub| - 1] != '/';
    }
  }

  // The directories and files the save functions write to.

  function QueryDataPath(stem: string): string { "src/planner/outputs/query_data/" + stem + "_data.csv" }
  function ClassDetailsPath(outputFile: string, stage: string): string
  {
    PathJoin(PathJoin("src/planner/outputs/data_classes", QueryDir(outputFile)), "stage_" + stage + "_classes.csv")
  }
  function ExpressionsPath(outputFile: string): string
  {
    PathJoin(PathJoin("src/planner/outputs/expressions", QueryDir(outputFile)), "expressions.csv")
  }
  function RulesDataPath(outputFile: string, stage: string): string
  {
    "src/planner/outputs/rules_data/" + PathStem(outputFile) + "/stage_" + stage + "_rules_application.csv"
  }
  function RuleStatsPath(outputFile: string, stage: string): string
  {
    "src/planner/outputs/rules_stats/" + PathStem(outputFile) + "/stage_" + stage + "_rule_stats.csv"
  }
  function EggMergesPath(outputFile: string): string
  {
    "src/planner/outputs/egg-merges/" + PathStem(outputFile) + "/egg_merges.csv"
  }
  function TotalCostPath(queryName: string): string
  {
    "src/planner/outputs/total_costs/" + queryName + "_data_total_cost.csv"
  }

  lemma {:induction false} IndexOfAppend(a: string, b: string, c: char)
    ensures IndexOf(a + b, c) == if c in a then IndexOf(a, c) else |a| + IndexOf(b, c)
  {
    var r := IndexOf(a + b, c);
    if c in a {
      var i := IndexOf(a, c);
      assert (a + b)[i] == c;
      assert forall k :: 0 <= k < i ==> (a + b)[k] == a[k];
    } else {
      var j := IndexOf(b, c);
      assert forall k :: 0 <= k < |a| ==> (a + b)[k] == a[k];
      assert forall k :: 0 <= k < j ==> (a + b)[|a| + k] == b[k];
      if j < |b| {
        assert (a + b)[|a| + j] == b[j];
      }
    }
  }

  /** Splitting `a`, the separator and a separator-free `b` gives `a`'s pieces followed by `b`. */
  lemma {:induction false} SplitSnoc(a: string, c: char, b: string)
    requires c !in b
    ensures Split(a + [c] + b, c) == Split(a, c) + [b]
    decreases |a|
  {
    var s := a + [c] + b;
    if c in a {
      var i := IndexOf(a, c);
      assert IndexOf(s, c) == i by {
        IndexOfAppend(a, [c] + b, c);
        assert s == a + ([c] + b);
      }
      assert s[..i] == a[..i];
      assert s[i + 1..] == a[i + 1..] + [c] + b;
      SplitSnoc(a[i + 1..], c, b);
    } else {
      assert IndexOf(s, c) == |a| by {
        IndexOfAppend(a, [c] + b, c);
        assert s == a + ([c] + b);
      }
      assert IndexOf(a, c) == |a|;
      assert IndexOf(b, c) == |b|;
      assert s[..|a|] == a;
      assert s[|a| + 1..] == b;
    }
  }

  /** A name without `/` placed under a directory is that path's file name. */
  lemma FileNameUnder(dir: string, name: string)
    requires '/' !in name && name != "" && name != "." && name != ".."
    ensures FileName(dir + "/" + name) == Some(name)
  {
    SplitSnoc(dir, '/', name);
    var pieces := Split(dir, '/') + [name];
    assert pieces[..|pieces| - 1] == Split(dir, '/');
  }

  lemma TrimEndMatchesSuffix(x: string, p: string)
    requires |p| > 0
    ensures TrimEndMatches(x + p, p) == TrimEndMatches(x, p)
  {
    assert (x + p)[|x|..] == p;
    assert (x + p)[..|x + p| - |p|] == x;
  }

  lemma {:induction false} BeforeFirstAppend(a: string, b: string, c: char)
    ensures BeforeFirst(a + b, c) == if c in a then BeforeFirst(a, c) else a + BeforeFirst(b, c)
  {
    IndexOfAppend(a, b, c);
    if c in a {
      assert (a + b)[..IndexOf(a, c)] == a[..IndexOf(a, c)];
    } else {
      assert (a + b)[..|a| + IndexOf(b, c)] == a + b[..IndexOf(b, c)];
    }
  }

  /**
   * The optimiser's output file `query_data/<stem>_data.csv` leads the other
   * save functions to the stem `<stem>_data` (rules data, rule statistics,
   * merges) and to the query directory `<stem>` up to its first `_` (class
   * details, expressions): for `q2` that is `q2_data` and `q2`.
   */
  lemma QueryDataNames(stem: string)
    requires '/' !in stem
    ensures PathStem(QueryDataPath(stem)) == stem + "_data"
    ensures QueryDir(QueryDataPath(stem)) == BeforeFirst(stem, '_')
  {
    QueryDataFileName(stem);
    QueryDataStem(stem);
    QueryDataDir(stem);
  }

  lemma QueryDataFileName(stem: string)
    requires '/' !in stem
    ensures FileName(QueryDataPath(stem)) == Some(stem + "_data.csv")
  {
    var name := stem + "_data.csv";
    assert "src/planner/outputs/query_data/" + stem + "_data.csv" == "src/planner/outputs/query_data" + "/" + name;
    FileNameUnder("src/planner/outputs/query_data", name);
  }

  lemma QueryDataStem(stem: string)
    ensures FileStem(stem + "_data.csv") == stem + "_data"
  {
    var name := stem + "_data.csv";
    assert name[|name| - 4] == '.';
    var i := LastIndexOf(name, '.');
    assert i == |name| - 4;
    assert name[..i] == stem + "_data";
  }

  lemma QueryDataDir(stem: string)
    ensures BeforeFirst(TrimEndMatches(stem + "_data.csv", ".csv"), '_') == BeforeFirst(stem, '_')
  {
    assert stem + "_data.csv" == (stem + "_data") + ".csv";
    TrimEndMatchesSuffix(stem + "_data", ".csv");
    assert !EndsWith(stem + "_data", ".csv") by {
      assert (stem + "_data")[|stem + "_data"| - 1] == 'a';
    }
    BeforeFirstAppend(stem, "_data", '_');
    assert BeforeFirst("_data", '_') == "";
  }

  // ---------------------------------------------------------------------------
  // save_stage_expression

  /** `replace('"', "\"\"")`: every double quote doubled. */
  function EscapeQuotes(s: string): string
  {
    if s == [] then [] else (if s[0] == '"' then "\"\"" else [s[0]]) + EscapeQuotes(s[1..])
  }

  /** The line appended to `expressions.csv`: the stage, a comma and the escaped expression in quotes. */
  function ExpressionLine(stage: string, expr: string): string
  {
    stage + ",\"" + EscapeQuotes(expr) + "\"\n"
  }

  /**
   * How a CSV reader reads a quoted field from just after its opening quote:
   * `""` stands for one quote and a lone `"` closes the field. The result is
   * the field's text and what follows the closing quote.
   */
  function ReadQuoted(body: string): Option<(string, string)>
    decreases |body|
  {
    if body == [] then None
    else if body[0] == '"' then
      if |body| >= 2 && body[1] == '"' then
        match ReadQuoted(body[2..])
        case None => None
        case Some((text, rest)) => Some(("\"" + text, rest))
      else Some(("", body[1..]))
    else
      match ReadQuoted(body[1..])
      case None => None
      case Some((text, rest)) => Some(([body[0]] + text, rest))
  }

  /** Escaping is undone by reading the quoted field back, whatever quotes the text holds. */
  lemma {:induction false} ReadQuotedEscape(s: string, tail: string)
    requires tail == [] || tail[0] != '"'
    ensures ReadQuoted(EscapeQuotes(s) + "\"" + tail) == Some((s, tail))
  {
    if s == [] {
      assert EscapeQuotes(s) + "\"" + tail == "\"" + tail;
      assert ("\"" + tail)[1..] == tail;
    } else {
      var body := EscapeQuotes(s) + "\"" + tail;
      var rest := EscapeQuotes(s[1..]) + "\"" + tail;
      ReadQuotedEscape(s[1..], tail);
      if s[0] == '"' {
        assert body == "\"\"" + rest;
        assert body[2..] == rest;
        assert "\"" + s[1..] == s;
      } else {
        assert body == [s[0]] + rest;
        assert body[0] == s[0] && body[1..] == rest;
        assert [s[0]] + s[1..] == s;
      }
    }
  }

  /** A stage without commas: the line reads back as that stage and the original expression. */
  lemma ExpressionLineReadBack(stage: string, expr: string)
    requires ',' !in stage
    ensures var line := ExpressionLine(stage, expr);
            BeforeFirst(line, ',') == stage && ReadQuoted(line[|stage| + 2..]) == Some((expr, "\n"))
  {
    var line := ExpressionLine(stage, expr);
    assert line == stage + (",\"" + EscapeQuotes(expr) + "\"\n");
    BeforeFirstAppend(stage, ",\"" + EscapeQuotes(expr) + "\"\n", ',');
    assert line[|stage| + 2..] == EscapeQuotes(expr) + "\"" + "\n";
    ReadQuotedEscape(expr, "\n");
  }

  // ---------------------------------------------------------------------------
  // calculate_and_save_total_costs

  function StageCostName(i: nat): string
  {
    "Stage_" + NatToString(i) + "_Cost"
  }

  /** `Query`, one `Stage_<i>_Cost` per stage cost for `i` from 1, then `Total_Cost`. */
  function TotalCostHeader(n: nat): (header: seq<string>)
    ensures |header| == n + 2 && header[0] == "Query" && header[n + 1] == "Total_Cost"
    ensures forall k :: 1 <= k <= n ==> header[k] == StageCostName(k)
  {
    ["Query"] + seq(n, k requires 0 <= k < n => StageCostName(k + 1)) + ["Total_Cost"]
  }

  /** The data row: the query name, the rendered stage costs, then the rendered total. */
  function TotalCostRow(queryName: string, costs: seq<string>, total: string): (row: seq<string>)
    ensures |row| == |costs| + 2 && row[0] == queryName && row[|costs| + 1] == total
    ensures forall k :: 1 <= k <= |costs| ==> row[k] == costs[k - 1]
  {
    [queryName] + costs + [total]
  }

  lemma StageCostNameInjective(i: nat, j: nat)
    requires StageCostName(i) == StageCostName(j)
    ensures i == j
  {
    var a := StageCostName(i);
    var si := NatToString(i);
    var sj := NatToString(j);
    assert |si| == |sj|;
    assert a[6..6 + |si|] == si;
    assert StageCostName(j)[6..6 + |sj|] == sj;
    NatToStringInjective(i, j);
  }

  /**
   * The header and the row line up, and the header names a stage-3 column
   * exactly when there are at least three stage costs; stage `k`'s cost sits
   * under `Stage_<k>_Cost`.
   */
  lemma TotalCostTableAligned(queryName: string, costs: seq<string>, total: string)
    ensures |TotalCostHeader(|costs|)| == |TotalCostRow(queryName, costs, total)|
    ensures forall k :: 1 <= k <= |costs| ==>
              TotalCostHeader(|costs|)[k] == StageCostName(k) && TotalCostRow(queryName, costs, total)[k] == costs[k - 1]
    ensures StageCostName(3) in TotalCostHeader(|costs|) <==> |costs| >= 3
  {
    var header := TotalCostHeader(|costs|);
    if |costs| >= 3 {
      assert header[3] == StageCostName(3);
    }
    if StageCostName(3) in header {
      var k :| 0 <= k < |header| && header[k] == StageCostName(3);
      assert |StageCostName(3)| == 12;
      if 1 <= k <= |costs| {
        StageCostNameInjective(k, 3);
      }
    }
  }
}
