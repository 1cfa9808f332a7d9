/**
 * The rule data of `optimizer.rs`: the per-rule totals of
 * `analyze_and_save_rule_statistics` / `append_rule_statistics` (a `HashMap`
 * accumulation, collected into a vector and sorted by total, descending, then
 * ranked), and the per-iteration rows of `save_rules_data`.
 *
 * A `Runner`'s iterations are given as their class count, node count and the
 * `(rule, applications)` pairs of their `applied` map, in order.
 */
module RuleStats {
  import opened Text
  import opened Ranking

  /** One entry of an iteration's `applied` map. */
  datatype Applied = Applied(rule: string, count: nat)

  /** What `save_rules_data` and the statistics read from one runner iteration. */
  datatype Iteration = Iteration(classCount: nat, nodeCount: nat, applied: seq<Applied>)

  /** Every application entry of every iteration, in order. */
  function AllApplied(its: seq<Iteration>): seq<Applied>
  {
    if its == [] then [] else AllApplied(its[..|its| - 1]) + its[|its| - 1].applied
  }

  /** The rules that occur among the entries. */
  function Names(apps: seq<Applied>): set<string>
  {
    set k | 0 <= k < |apps| :: apps[k].rule
  }

  /** Reference definition: the sum of the counts of a rule's entries. */
  function TotalOf(apps: seq<Applied>, rule: string): nat
  {
    if apps == [] then 0
    else TotalOf(apps[..|apps| - 1], rule) + (if apps[|apps| - 1].rule == rule then apps[|apps| - 1].count else 0)
  }

  /** `*rule_applications.entry(rule_name).or_insert(0) += count`, entry after entry. */
  function Tally(apps: seq<Applied>): map<string, nat>
  {
    if apps == [] then map[]
    else
      var m := Tally(apps[..|apps| - 1]);
      var a := apps[|apps| - 1];
      m[a.rule := (if a.rule in m then m[a.rule] else 0) + a.count]
  }

  /** The tally has a key for exactly the rules that occur, each mapped to its total. */
  lemma {:induction false} TallyIsTotals(apps: seq<Applied>)
    ensures Tally(apps).Keys == Names(apps)
    ensures forall r :: r in Tally(apps) ==> Tally(apps)[r] == TotalOf(apps, r)
  {
    if apps != [] {
      var init := apps[..|apps| - 1];
      TallyIsTotals(init);
      assert Names(apps) == Names(init) + {apps[|apps| - 1].rule} by {
        assert forall k :: 0 <= k < |init| ==> init[k] == apps[k];
      }
      forall r | r in Tally(apps) ensures Tally(apps)[r] == TotalOf(apps, r) {
        if r !in Tally(init) {
          TotalOfAbsent(init, r);
        }
      }
    }
  }

  /** A rule that does not occur has total 0. */
  lemma {:induction false} TotalOfAbsent(apps: seq<Applied>, rule: string)
    requires rule !in Names(apps)
    ensures TotalOf(apps, rule) == 0
  {
    if apps != [] {
      var init := apps[..|apps| - 1];
      assert Names(init) <= Names(apps) by {
        assert forall k :: 0 <= k < |init| ==> init[k] == apps[k];
      }
      TotalOfAbsent(init, rule);
    }
  }

  /** Totals add up over a concatenation. */
  lemma {:induction false} TotalOfAppend(a: seq<Applied>, b: seq<Applied>, rule: string)
    ensures TotalOf(a + b, rule) == TotalOf(a, rule) + TotalOf(b, rule)
    decreases |b|
  {
    if b == [] {
      assert a + b == a;
    } else {
      assert (a + b)[..|a + b| - 1] == a + b[..|b| - 1];
      TotalOfAppend(a, b[..|b| - 1], rule);
    }
  }

  /** The inner loop: adds one iteration's applied entries to the running tally. */
  method AddApplied(ruleApplications: map<string, nat>, ghost before: seq<Applied>, applied: seq<Applied>)
    returns (updated: map<string, nat>)
    requires ruleApplications == Tally(before)
    ensures updated == Tally(before + applied)
  {
    updated := ruleApplications;
    assert before + applied[..0] == before;
    var j := 0;
    while j < |applied|
      invariant j <= |applied| && updated == Tally(before + applied[..j])
    {
      var ruleName := applied[j].rule;
      var count := applied[j].count;
      assert (before + applied[..j + 1])[..|before| + j] == before + applied[..j];
      assert (before + applied[..j + 1])[|before| + j] == applied[j];
      updated := updated[ruleName := (if ruleName in updated then updated[ruleName] else 0) + count];
      j := j + 1;
    }
    assert applied[..j] == applied;
  }

  /** The nested loop over iterations and their applied rules that fills the `HashMap`. */
  method AggregateApplications(its: seq<Iteration>) returns (ruleApplications: map<string, nat>)
    ensures ruleApplications == Tally(AllApplied(its))
  {
    ruleApplications := map[];
    var i := 0;
    while i < |its|
      invariant i <= |its| && ruleApplications == Tally(AllApplied(its[..i]))
    {
      ruleApplications := AddApplied(ruleApplications, AllApplied(its[..i]), its[i].applied);
      assert its[..i + 1][..i] == its[..i];
      i := i + 1;
    }
    assert its[..i] == its;
  }

  /**
   * `rule_applications.into_iter().collect()`: every entry of the map once, in
   * an order the model leaves open, as a `HashMap`'s iteration order is.
   */
  method CollectEntries(m: map<string, nat>) returns (entries: seq<RuleTotal>)
    ensures RulesOf(entries) == m.Keys && DistinctRules(entries)
    ensures forall k :: 0 <= k < |entries| ==> entries[k].rule in m && entries[k].total == m[entries[k].rule]
  {
    entries := [];
    var rest := m.Keys;
    while rest != {}
      invariant rest <= m.Keys && RulesOf(entries) == m.Keys - rest
      invariant DistinctRules(entries)
      invariant forall k :: 0 <= k < |entries| ==> entries[k].rule in m && entries[k].total == m[entries[k].rule]
      decreases rest
    {
      var r :| r in rest;
      RulesOfSnoc(entries, RuleTotal(r, m[r]));
      assert forall k :: 0 <= k < |entries| ==> entries[k].rule in RulesOf(entries);
      entries := entries + [RuleTotal(r, m[r])];
      rest := rest - {r};
    }
  }

  /**
   * The statistics both functions compute: each rule that was applied appears
   * exactly once, with the sum of its applications over all iterations, in
   * non-increasing order of that sum.
   */
  method RuleStatistics(its: seq<Iteration>) returns (ruleStats: seq<RuleTotal>)
    ensures RulesOf(ruleStats) == Names(AllApplied(its)) && DistinctRules(ruleStats)
    ensures forall k :: 0 <= k < |ruleStats| ==> ruleStats[k].total == TotalOf(AllApplied(its), ruleStats[k].rule)
    ensures NonIncreasing(ruleStats)
  {
    var ruleApplications := AggregateApplications(its);
    var entries := CollectEntries(ruleApplications);
    TallyIsTotals(AllApplied(its));
    ruleStats := SortDesc(entries);
    SortDescSorts(entries);
    RulesOfSameEntries(ruleStats, entries);
    forall k | 0 <= k < |ruleStats| ensures ruleStats[k].total == TotalOf(AllApplied(its), ruleStats[k].rule) {
      assert ruleStats[k] in entries;
    }
  }

  // ---------------------------------------------------------------------------
  // The rule-statistics table

  const RuleStatsHeader: seq<string> := ["Stage", "Rule_Name", "Total_Applications", "Rank"]

  /** One data row: the stage, the rule, its total and its rank `position + 1`. */
  function RuleStatsRow(stage: string, position: nat, e: RuleTotal): seq<string>
  {
    [stage, e.rule, NatToString(e.total), NatToString(position + 1)]
  }

  /** The rows written under the header, in the order of the sorted statistics. */
  function RuleStatsRows(stage: string, ruleStats: seq<RuleTotal>): (rows: seq<seq<string>>)
    ensures |rows| == |ruleStats|
    ensures forall k :: 0 <= k < |rows| ==> rows[k] == RuleStatsRow(stage, k, ruleStats[k])
  {
    seq(|ruleStats|, k requires 0 <= k < |ruleStats| => RuleStatsRow(stage, k, ruleStats[k]))
  }

  /**
   * Read back, the ranks are 1, 2, …, n in row order and the totals are
   * non-increasing, so a row of lower rank never has a smaller total.
   */
  lemma RuleStatsRanked(stage: string, ruleStats: seq<RuleTotal>)
    requires NonIncreasing(ruleStats)
    ensures var rows := RuleStatsRows(stage, ruleStats);
            (forall k :: 0 <= k < |rows| ==> ParseNat(rows[k][3]) == k + 1 && ParseNat(rows[k][2]) == ruleStats[k].total) &&
            (forall i, j :: 0 <= i < j < |rows| ==> ParseNat(rows[i][2]) >= ParseNat(rows[j][2]))
  {
    var rows := RuleStatsRows(stage, ruleStats);
    forall k | 0 <= k < |rows| ensures ParseNat(rows[k][3]) == k + 1 && ParseNat(rows[k][2]) == ruleStats[k].total {
      ParseNatToString(k + 1);
      ParseNatToString(ruleStats[k].total);
    }
  }

  /** How the statistics reach the file: a fresh file, or appended after what is there. */
  datatype WriteMode = Overwrite | Append

  /**
   * The file after the statistics are written. `analyze_and_save_rule_statistics`
   * truncates and writes header and rows; `append_rule_statistics` appends the
   * rows after the existing lines, with the header only when the file was empty.
   */
  function RuleStatsFile(mode: WriteMode, existing: seq<seq<string>>, stage: string, ruleStats: seq<RuleTotal>): (file: seq<seq<string>>)
    ensures var header := if mode == Overwrite || existing == [] then 1 else 0;
            var kept := if mode == Append then |existing| else 0;
            |file| == kept + header + |ruleStats| &&
            file[..kept] == existing[..kept] &&
            (header == 1 ==> file[kept] == RuleStatsHeader) &&
            file[kept + header..] == RuleStatsRows(stage, ruleStats)
  {
    match mode
    case Overwrite => [RuleStatsHeader] + RuleStatsRows(stage, ruleStats)
    case Append => existing + (if existing == [] then [RuleStatsHeader] else []) + RuleStatsRows(stage, ruleStats)
  }

  // ---------------------------------------------------------------------------
  // save_rules_data

  const RulesDataHeader: seq<string> :=
    ["Stage", "Internal_Iteration", "Class_Count", "Node_Count", "Rule_Name", "Applications"]

  function RulesDataRow(stage: string, index: nat, it: Iteration, rule: string, count: string): seq<string>
  {
    [stage, NatToString(index), NatToString(it.classCount), NatToString(it.nodeCount), rule, count]
  }

  /** One row per applied entry, in order. */
  function AppliedRows(stage: string, index: nat, it: Iteration, apps: seq<Applied>): (rows: seq<seq<string>>)
    ensures |rows| == |apps|
  {
    if apps == [] then []
    else
      var a := apps[|apps| - 1];
      AppliedRows(stage, index, it, apps[..|apps| - 1]) + [RulesDataRow(stage, index, it, a.rule, NatToString(a.count))]
  }

  /** The rows of one iteration: its applied entries, or a single `"None","0"` row when there are none. */
  function IterationRows(stage: string, index: nat, it: Iteration): seq<seq<string>>
  {
    if it.applied == [] then [RulesDataRow(stage, index, it, "None", "0")]
    else AppliedRows(stage, index, it, it.applied)
  }

  /** The rows of all iterations, the iteration's position as `Internal_Iteration`. */
  function ExpandAll(stage: string, its: seq<Iteration>): seq<seq<string>>
  {
    if its == [] then []
    else ExpandAll(stage, its[..|its| - 1]) + IterationRows(stage, |its| - 1, its[|its| - 1])
  }

  lemma ExpandAllSnoc(stage: string, its: seq<Iteration>, i: nat)
    requires i < |its|
    ensures ExpandAll(stage, its[..i + 1]) == ExpandAll(stage, its[..i]) + IterationRows(stage, i, its[i])
  {
    assert its[..i + 1][..i] == its[..i];
  }

  lemma AppliedRowsSnoc(stage: string, index: nat, it: Iteration, apps: seq<Applied>, j: nat)
    requires j < |apps|
    ensures AppliedRows(stage, index, it, apps[..j + 1])
         == AppliedRows(stage, index, it, apps[..j]) + [RulesDataRow(stage, index, it, apps[j].rule, NatToString(apps[j].count))]
  {
    assert apps[..j + 1][..j] == apps[..j];
  }

  /** The body of the row loop: one iteration's rows, or the filler row. */
  method AppendIterationRows(rows: seq<seq<string>>, stage: string, iterIdx: nat, iterData: Iteration)
    returns (extended: seq<seq<string>>)
    ensures extended == rows + IterationRows(stage, iterIdx, iterData)
  {
    extended := rows;
    var j := 0;
    while j < |iterData.applied|
      invariant j <= |iterData.applied|
      invariant extended == rows + AppliedRows(stage, iterIdx, iterData, iterData.applied[..j])
    {
      var applied := iterData.applied[j];
      AppliedRowsSnoc(stage, iterIdx, iterData, iterData.applied, j);
      extended := extended + [RulesDataRow(stage, iterIdx, iterData, applied.rule, NatToString(applied.count))];
      j := j + 1;
    }
    assert iterData.applied[..j] == iterData.applied;
    if iterData.applied == [] {
      extended := extended + [RulesDataRow(stage, iterIdx, iterData, "None", "0")];
    }
  }

  /** The row loop of `save_rules_data`: the data rows written under `RulesDataHeader`. */
  method RulesApplicationRows(stage: string, its: seq<Iteration>) returns (rows: seq<seq<string>>)
    ensures rows == ExpandAll(stage, its)
  {
    rows := [];
    var iterIdx := 0;
    while iterIdx < |its|
      invariant iterIdx <= |its| && rows == ExpandAll(stage, its[..iterIdx])
    {
      rows := AppendIterationRows(rows, stage, iterIdx, its[iterIdx]);
      ExpandAllSnoc(stage, its, iterIdx);
      iterIdx := iterIdx + 1;
    }
    assert its[..iterIdx] == its;
  }

  /** The number of rows: one per applied entry, and one for each iteration with none. */
  function RowCount(its: seq<Iteration>): nat
  {
    if its == [] then 0
    else RowCount(its[..|its| - 1]) + (if its[|its| - 1].applied == [] then 1 else |its[|its| - 1].applied|)
  }

  /** The shape of a data row: six fields, the stage first and the iteration's position second. */
  predicate RowOfIteration(row: seq<string>, stage: string, index: nat)
  {
    |row| == |RulesDataHeader| && row[0] == stage && row[1] == NatToString(index)
  }

  /** Row `k` of an iteration's rows carries entry `k`'s rule and count. */
  lemma {:induction false} AppliedRowsEntries(stage: string, index: nat, it: Iteration, apps: seq<Applied>)
    ensures var rows := AppliedRows(stage, index, it, apps);
            forall k :: 0 <= k < |apps| ==> rows[k] == RulesDataRow(stage, index, it, apps[k].rule, NatToString(apps[k].count))
  {
    if apps != [] {
      var init := apps[..|apps| - 1];
      AppliedRowsEntries(stage, index, it, init);
      assert forall k :: 0 <= k < |init| ==> init[k] == apps[k];
    }
  }

  lemma IterationRowsShape(stage: string, index: nat, it: Iteration)
    ensures var rows := IterationRows(stage, index, it);
            |rows| == (if it.applied == [] then 1 else |it.applied|) &&
            forall k :: 0 <= k < |rows| ==> RowOfIteration(rows[k], stage, index)
  {
    AppliedRowsEntries(stage, index, it, it.applied);
  }

  /** A data row of a stage whose `Internal_Iteration` reads back as a number below `bound`. */
  predicate RowBelow(row: seq<string>, stage: string, bound: nat)
  {
    |row| == |RulesDataHeader| && row[0] == stage && AllDigits(row[1]) && ParseNat(row[1]) < bound
  }

  /**
   * There are `RowCount` rows; every one has six fields, carries the stage,
   * and its `Internal_Iteration` reads back as the position of an iteration.
   */
  lemma {:induction false} ExpandAllShape(stage: string, its: seq<Iteration>)
    ensures |ExpandAll(stage, its)| == RowCount(its)
    ensures forall k :: 0 <= k < |ExpandAll(stage, its)| ==> RowBelow(ExpandAll(stage, its)[k], stage, |its|)
  {
    if its != [] {
      var n := |its| - 1;
      var front := ExpandAll(stage, its[..n]);
      var tail := IterationRows(stage, n, its[n]);
      ExpandAllShape(stage, its[..n]);
      IterationRowsShape(stage, n, its[n]);
      ParseNatToString(n);
      assert ExpandAll(stage, its) == front + tail;
      forall k | 0 <= k < |front + tail| ensures RowBelow((front + tail)[k], stage, |its|) {
        if k < |front| {
          assert (front + tail)[k] == front[k];
        } else {
          assert (front + tail)[k] == tail[k - |front|];
        }
      }
    }
  }

  /** The sum of the `Applications` column over the rows naming `rule`. */
  function ColumnTotal(rows: seq<seq<string>>, rule: string): nat
  {
    if rows == [] then 0
    else
      var row := rows[|rows| - 1];
      ColumnTotal(rows[..|rows| - 1], rule) + (if |row| == 6 && row[4] == rule && AllDigits(row[5]) then ParseNat(row[5]) else 0)
  }

  lemma {:induction false} ColumnTotalAppend(a: seq<seq<string>>, b: seq<seq<string>>, rule: string)
    ensures ColumnTotal(a + b, rule) == ColumnTotal(a, rule) + ColumnTotal(b, rule)
    decreases |b|
  {
    if b == [] {
      assert a + b == a;
    } else {
      assert (a + b)[..|a + b| - 1] == a + b[..|b| - 1];
      ColumnTotalAppend(a, b[..|b| - 1], rule);
    }
  }

  lemma {:induction false} AppliedRowsTotal(stage: string, index: nat, it: Iteration, apps: seq<Applied>, rule: string)
    ensures ColumnTotal(AppliedRows(stage, index, it, apps), rule) == TotalOf(apps, rule)
  {
    if apps != [] {
      var init := apps[..|apps| - 1];
      AppliedRowsTotal(stage, index, it, init, rule);
      ColumnTotalAppend(AppliedRows(stage, index, it, init), [RulesDataRow(stage, index, it, apps[|apps| - 1].rule, NatToString(apps[|apps| - 1].count))], rule);
      ParseNatToString(apps[|apps| - 1].count);
    }
  }

  /**
   * The two outputs agree: for any rule other than the filler name `None`,
   * summing the `Applications` column of the rule-application rows gives the
   * rule's total in the statistics.
   */
  lemma {:induction false} RulesDataSumsToTotals(stage: string, its: seq<Iteration>, rule: string)
    requires rule != "None"
    ensures ColumnTotal(ExpandAll(stage, its), rule) == TotalOf(AllApplied(its), rule)
  {
    if its != [] {
      var n := |its| - 1;
      RulesDataSumsToTotals(stage, its[..n], rule);
      ColumnTotalAppend(ExpandAll(stage, its[..n]), IterationRows(stage, n, its[n]), rule);
      TotalOfAppend(AllApplied(its[..n]), its[n].applied, rule);
      AppliedRowsTotal(stage, n, its[n], its[n].applied, rule);
      if its[n].applied == [] {
        var filler := RulesDataRow(stage, n, its[n], "None", "0");
        assert [filler][..0] == [];
        assert ColumnTotal([filler], rule) == 0;
      }
    }
  }
}
