/**
 * The e-graph statistics of `optimizer.rs`: the per-class enumeration with its
 * minimum and maximum node counts, the count of relational operators in the
 * chosen expression, and the rows of the class-details table.
 *
 * The e-graph is given as its classes in the order `egraph.classes()` yields
 * them, each class as the formatted texts of its nodes; the chosen expression
 * is given as the formatted texts of its nodes.
 */
module EgraphStats {
  import opened Text

  /** `usize::MAX` on a 64-bit target: the initial value of `min_nodes`. */
  const UsizeMax: nat := 0xFFFF_FFFF_FFFF_FFFF

  /** One entry of `class_infos`: the class's position, its node count and its nodes. */
  datatype ClassInfo = ClassInfo(classId: nat, nodeCount: nat, nodes: seq<string>)

  /** The node count of every class, in order. */
  function NodeCounts(classes: seq<seq<string>>): (counts: seq<nat>)
    ensures |counts| == |classes|
    ensures forall k :: 0 <= k < |classes| ==> counts[k] == |classes[k]|
  {
    if classes == [] then [] else NodeCounts(classes[..|classes| - 1]) + [|classes[|classes| - 1]|]
  }

  /** The `min_nodes` fold: starts at `usize::MAX` and keeps any strictly smaller count. */
  function MinCount(counts: seq<nat>): nat
  {
    if counts == [] then UsizeMax
    else var m := MinCount(counts[..|counts| - 1]); if counts[|counts| - 1] < m then counts[|counts| - 1] else m
  }

  /** The `max_nodes` fold: starts at `usize::MIN` (0) and keeps any strictly larger count. */
  function MaxCount(counts: seq<nat>): nat
  {
    if counts == [] then 0
    else var m := MaxCount(counts[..|counts| - 1]); if counts[|counts| - 1] > m then counts[|counts| - 1] else m
  }

  /** The minimum is a lower bound of every count and, when there are counts that fit in a `usize`, one of them. */
  lemma {:induction false} MinCountIsMinimum(counts: seq<nat>)
    ensures MinCount(counts) <= UsizeMax
    ensures forall k :: 0 <= k < |counts| ==> MinCount(counts) <= counts[k]
    ensures counts != [] && (forall k :: 0 <= k < |counts| ==> counts[k] <= UsizeMax) ==> MinCount(counts) in counts
    ensures counts == [] ==> MinCount(counts) == UsizeMax
  {
    if counts != [] {
      var init := counts[..|counts| - 1];
      MinCountIsMinimum(init);
      assert forall k :: 0 <= k < |init| ==> init[k] == counts[k];
      if init != [] && (forall k :: 0 <= k < |counts| ==> counts[k] <= UsizeMax) {
        assert MinCount(init) in init;
      }
    }
  }

  /** The maximum is an upper bound of every count and, when there are counts, one of them. */
  lemma {:induction false} MaxCountIsMaximum(counts: seq<nat>)
    ensures forall k :: 0 <= k < |counts| ==> counts[k] <= MaxCount(counts)
    ensures counts != [] ==> MaxCount(counts) in counts
    ensures counts == [] ==> MaxCount(counts) == 0
  {
    if counts != [] {
      var init := counts[..|counts| - 1];
      MaxCountIsMaximum(init);
      assert forall k :: 0 <= k < |init| ==> init[k] == counts[k];
      if init != [] {
        assert MaxCount(init) in init;
      } else {
        assert counts == [counts[0]];
      }
    }
  }

  /** The class records of the first loop: each class's position, node count and nodes, in order. */
  function Infos(classes: seq<seq<string>>): (infos: seq<ClassInfo>)
    ensures |infos| == |classes|
    ensures forall k :: 0 <= k < |classes| ==> infos[k] == ClassInfo(k, |classes[k]|, classes[k])
  {
    if classes == [] then []
    else
      var init := classes[..|classes| - 1];
      assert forall k :: 0 <= k < |init| ==> init[k] == classes[k];
      Infos(init) + [ClassInfo(|classes| - 1, |classes[|classes| - 1]|, classes[|classes| - 1])]
  }

  /**
   * `visit_and_enumerate_alternatives`: the first loop counts the classes and
   * records each one's position, node count and nodes; the second loop folds
   * the node counts into their minimum and maximum. (The average is left out.)
   */
  method VisitAndEnumerate(classes: seq<seq<string>>)
    returns (classesEq: nat, minNodes: nat, maxNodes: nat, infos: seq<ClassInfo>)
    ensures classesEq == |classes| && |infos| == |classes|
    ensures infos == Infos(classes)
    ensures minNodes == MinCount(NodeCounts(classes)) && maxNodes == MaxCount(NodeCounts(classes))
  {
    classesEq := 0;
    infos := [];
    var classId := 0;
    while classId < |classes|
      invariant classId <= |classes| && classesEq == classId && |infos| == classId
      invariant infos == Infos(classes[..classId])
    {
      classesEq := classesEq + 1;
      var nodes: seq<string> := [];
      var n := 0;
      while n < |classes[classId]|
        invariant n <= |classes[classId]| && nodes == classes[classId][..n]
      {
        nodes := nodes + [classes[classId][n]];
        n := n + 1;
      }
      assert nodes == classes[classId];
      assert classes[..classId + 1][..classId] == classes[..classId];
      infos := infos + [ClassInfo(classId, |nodes|, nodes)];
      classId := classId + 1;
    }
    assert classes[..classId] == classes;

    minNodes := UsizeMax;
    maxNodes := 0;
    var i := 0;
    while i < |infos|
      invariant i <= |infos|
      invariant minNodes == MinCount(NodeCounts(classes)[..i]) && maxNodes == MaxCount(NodeCounts(classes)[..i])
    {
      var count := infos[i].nodeCount;
      assert NodeCounts(classes)[..i + 1][..i] == NodeCounts(classes)[..i];
      if count < minNodes {
        minNodes := count;
      }
      if count > maxNodes {
        maxNodes := count;
      }
      i := i + 1;
    }
    assert NodeCounts(classes)[..i] == NodeCounts(classes);
  }

  /**
   * What the statistics promise: `min_nodes` is at most every class's node
   * count and `max_nodes` at least; with classes, both are attained; with none,
   * they keep their initial values `usize::MAX` and 0.
   */
  lemma StatisticsBoundNodeCounts(classes: seq<seq<string>>)
    requires forall k :: 0 <= k < |classes| ==> |classes[k]| <= UsizeMax
    ensures forall k :: 0 <= k < |classes| ==>
              MinCount(NodeCounts(classes)) <= |classes[k]| <= MaxCount(NodeCounts(classes))
    ensures classes != [] ==> exists k :: 0 <= k < |classes| && |classes[k]| == MinCount(NodeCounts(classes))
    ensures classes != [] ==> exists k :: 0 <= k < |classes| && |classes[k]| == MaxCount(NodeCounts(classes))
    ensures classes == [] ==> MinCount(NodeCounts(classes)) == UsizeMax && MaxCount(NodeCounts(classes)) == 0
  {
    var counts := NodeCounts(classes);
    MinCountIsMinimum(counts);
    MaxCountIsMaximum(counts);
    if classes != [] {
      var i :| 0 <= i < |counts| && counts[i] == MinCount(counts);
      assert |classes[i]| == MinCount(counts);
      var j :| 0 <= j < |counts| && counts[j] == MaxCount(counts);
      assert |classes[j]| == MaxCount(counts);
    }
  }

  // ---------------------------------------------------------------------------
  // detail_expr

  /** The twelve relational operator names `detail_expr` looks for. */
  const RelationalNames: seq<string> :=
    ["Join", "Filter", "Proj", "HashAgg", "Order", "Scan",
     "HashJoin", "IndexScan", "SeqScan", "MergeJoin", "Values", "TopN"]

  /** `n.split('(').next()`: the formatted node up to its first `(`. */
  function Head(n: string): (h: string)
    ensures StartsWith(n, h) && '(' !in h
    ensures |h| == |n| || n[|h|] == '('
  {
    BeforeFirst(n, '(')
  }

  predicate IsRelational(n: string)
  {
    Head(n) in RelationalNames
  }

  /** A node formatted as `Name(…)` with a name free of `(` has that name as its head. */
  lemma HeadOfFormattedNode(name: string, args: string)
    requires '(' !in name
    ensures Head(name + "(" + args) == name
  {
    var n := name + "(" + args;
    var h := Head(n);
    assert n[..|name|] == name;
    assert n[|name|] == '(';
  }

  /** The number of relational nodes. */
  function CountRelational(nodes: seq<string>): nat
  {
    if nodes == [] then 0
    else CountRelational(nodes[..|nodes| - 1]) + (if IsRelational(nodes[|nodes| - 1]) then 1 else 0)
  }

  /** `detail_expr`: the counter loop over the formatted nodes. */
  method DetailExpr(nodes: seq<string>) returns (counter: nat)
    ensures counter == CountRelational(nodes)
  {
    counter := 0;
    var i := 0;
    while i < |nodes|
      invariant i <= |nodes| && counter == CountRelational(nodes[..i])
    {
      var firstElement := Head(nodes[i]);
      assert nodes[..i + 1][..i] == nodes[..i];
      if firstElement in RelationalNames {
        counter := counter + 1;
      }
      i := i + 1;
    }
    assert nodes[..i] == nodes;
  }

  /** The count never exceeds the number of nodes. */
  lemma {:induction false} CountRelationalAtMostNodes(nodes: seq<string>)
    ensures CountRelational(nodes) <= |nodes|
  {
    if nodes != [] {
      CountRelationalAtMostNodes(nodes[..|nodes| - 1]);
    }
  }

  /** The count equals the number of nodes exactly when every node is relational. */
  lemma {:induction false} CountRelationalAllIff(nodes: seq<string>)
    ensures CountRelational(nodes) == |nodes| <==> forall k :: 0 <= k < |nodes| ==> IsRelational(nodes[k])
  {
    if nodes != [] {
      var init := nodes[..|nodes| - 1];
      CountRelationalAllIff(init);
      CountRelationalAtMostNodes(init);
      assert forall k :: 0 <= k < |init| ==> init[k] == nodes[k];
      assert nodes == init + [nodes[|nodes| - 1]];
    }
  }

  /** The count is zero exactly when no node is relational. */
  lemma {:induction false} CountRelationalNoneIff(nodes: seq<string>)
    ensures CountRelational(nodes) == 0 <==> forall k :: 0 <= k < |nodes| ==> !IsRelational(nodes[k])
  {
    if nodes != [] {
      var init := nodes[..|nodes| - 1];
      CountRelationalNoneIff(init);
      if CountRelational(nodes) == 0 {
        forall k | 0 <= k < |nodes| ensures !IsRelational(nodes[k]) {
          if k < |init| {
            assert init[k] == nodes[k];
          }
        }
      }
    }
  }

  /** The count of a concatenation is the sum of the counts. */
  lemma {:induction false} CountRelationalAppend(a: seq<string>, b: seq<string>)
    ensures CountRelational(a + b) == CountRelational(a) + CountRelational(b)
    decreases |b|
  {
    if b != [] {
      assert (a + b)[..|a + b| - 1] == a + b[..|b| - 1];
      CountRelationalAppend(a, b[..|b| - 1]);
    } else {
      assert a + b == a;
    }
  }

  // ---------------------------------------------------------------------------
  // save_class_details

  const ClassDetailsHeader: seq<string> := ["Stage", "Class_ID", "Node_Count", "Nodes"]

  /** `nodes.join(sep)`. */
  function Join(parts: seq<string>, sep: string): string
  {
    if parts == [] then "" else if |parts| == 1 then parts[0] else Join(parts[..|parts| - 1], sep) + sep + parts[|parts| - 1]
  }

  /** One row of the class-details table. */
  function ClassDetailsRow(stage: string, info: ClassInfo): (row: seq<string>)
    ensures |row| == |ClassDetailsHeader|
  {
    [stage, NatToString(info.classId), NatToString(info.nodeCount), Join(info.nodes, "; ")]
  }

  /** The whole table `save_class_details` writes: the header, then one row per class in order. */
  function ClassDetailsTable(stage: string, infos: seq<ClassInfo>): (table: seq<seq<string>>)
    ensures |table| == |infos| + 1 && table[0] == ClassDetailsHeader
    ensures forall k :: 0 <= k < |infos| ==> table[k + 1] == ClassDetailsRow(stage, infos[k])
  {
    [ClassDetailsHeader] + seq(|infos|, k requires 0 <= k < |infos| => ClassDetailsRow(stage, infos[k]))
  }

  /** Reading back the `Class_ID` and `Node_Count` columns gives each class's position and node count. */
  lemma ClassDetailsReadBack(stage: string, classes: seq<seq<string>>, infos: seq<ClassInfo>, k: nat)
    requires |infos| == |classes| && k < |classes|
    requires forall j :: 0 <= j < |infos| ==> infos[j] == ClassInfo(j, |classes[j]|, classes[j])
    ensures var row := ClassDetailsTable(stage, infos)[k + 1];
            ParseNat(row[1]) == k && ParseNat(row[2]) == |classes[k]|
  {
    ParseNatToString(k);
    ParseNatToString(|classes[k]|);
  }
}
