/**
 * The trace-line accumulator of `script/extracter.py`: it scans the optimizer's
 * printed trace line by line, keeps the latest value seen for each of eight
 * fields, and emits a row of eight strings as soon as all eight are present,
 * after which every field but the stage is cleared.
 *
 * Each `re.search` is modelled as a scan for the first position where one of
 * the tag's literal prefixes is followed by a character of the capture class;
 * the captured group is the maximal run of that class from there (what the
 * greedy `(\d+)` or `([\d.]+)` takes).
 */
module TraceExtracter {
  import opened Wrappers
  import opened Text

  /** A tag pattern: alternative literal prefixes, then one captured run. */
  datatype Tag = Tag(prefixes: seq<string>, capture: CharClass)

  const StageTag := Tag(["Stage "], Digits)
  const IterationTag := Tag(["Iteração: "], Digits)
  const CostTag := Tag(["Custo inicial: ", "Custo atual: ", "Custo final: "], DigitsOrDot)
  const RelationalTag := Tag(["Relacionais: "], Digits)
  const ClassesTag := Tag(["Classes-Total "], Digits)
  const MinTag := Tag(["Mínimo: "], Digits)
  const MaxTag := Tag(["Máximo: "], Digits)
  const MeanTag := Tag(["Média: "], DigitsOrDot)

  /** The header row written before the data rows. */
  const Header: seq<string> := ["Stage", "Iteração", "Custo", "Relacionais", "Classes_Total", "Min", "Max", "Media"]

  /** Prefix `p` starts at `i` and is followed by at least one capture character. */
  predicate OpensAt(line: string, i: nat, p: string, cls: CharClass)
  {
    i + |p| < |line| && line[i..i + |p|] == p && InClass(line[i + |p|], cls)
  }

  /** The first alternative of the tag that opens a match at `i`, if any. */
  function AlternativeAt(line: string, i: nat, prefixes: seq<string>, cls: CharClass): (r: Option<string>)
    ensures r.Some? ==> r.value in prefixes && OpensAt(line, i, r.value, cls)
    ensures r.None? ==> forall p :: p in prefixes ==> !OpensAt(line, i, p, cls)
  {
    if prefixes == [] then None
    else if OpensAt(line, i, prefixes[0], cls) then Some(prefixes[0])
    else AlternativeAt(line, i, prefixes[1..], cls)
  }

  predicate MatchesAt(line: string, i: nat, tag: Tag)
  {
    AlternativeAt(line, i, tag.prefixes, tag.capture).Some?
  }

  /** The leftmost position at or after `i` where the tag matches. */
  function FirstMatch(line: string, tag: Tag, i: nat): (r: Option<nat>)
    requires i <= |line|
    ensures r.Some? ==> i <= r.value < |line| && MatchesAt(line, r.value, tag)
    ensures r.Some? ==> forall k :: i <= k < r.value ==> !MatchesAt(line, k, tag)
    ensures r.None? ==> forall k :: i <= k <= |line| ==> !MatchesAt(line, k, tag)
    decreases |line| - i
  {
    if MatchesAt(line, i, tag) then Some(i)
    else if i == |line| then None
    else FirstMatch(line, tag, i + 1)
  }

  /**
   * The group captured by a match at `j`: the maximal run of the capture class
   * after the first alternative that opens there.
   */
  function CaptureAt(line: string, j: nat, tag: Tag): (v: string)
    requires MatchesAt(line, j, tag)
    ensures |v| > 0 && AllIn(v, tag.capture)
    ensures exists p :: p in tag.prefixes && j + |p| + |v| <= |line| && line[j..j + |p|] == p &&
              v == line[j + |p|..j + |p| + |v|] &&
              (j + |p| + |v| == |line| || !InClass(line[j + |p| + |v|], tag.capture))
  {
    var p := AlternativeAt(line, j, tag.prefixes, tag.capture).value;
    line[j + |p|..j + |p| + RunLength(line, j + |p|, tag.capture)]
  }

  /**
   * `regex.search(line)` followed by `.group(1)`, scanning from position `i`
   * (the script always scans from 0).
   */
  function Search(line: string, tag: Tag, i: nat): (r: Option<string>)
    requires i <= |line|
    ensures r.Some? ==> |r.value| > 0 && AllIn(r.value, tag.capture)
    decreases |line| - i
  {
    if MatchesAt(line, i, tag) then Some(CaptureAt(line, i, tag))
    else if i == |line| then None
    else Search(line, tag, i + 1)
  }

  /**
   * `search` captures at the leftmost matching position and finds nothing
   * exactly when the tag matches nowhere.
   */
  lemma {:induction false} SearchCapturesAtFirstMatch(line: string, tag: Tag, i: nat)
    requires i <= |line|
    ensures Search(line, tag, i) == if FirstMatch(line, tag, i).Some? then Some(CaptureAt(line, FirstMatch(line, tag, i).value, tag)) else None
    ensures Search(line, tag, i).None? <==> forall k :: i <= k <= |line| ==> !MatchesAt(line, k, tag)
    decreases |line| - i
  {
    if !MatchesAt(line, i, tag) && i < |line| {
      SearchCapturesAtFirstMatch(line, tag, i + 1);
    }
  }

  /** No alternative of the tag is a proper beginning of another. */
  predicate PrefixFree(prefixes: seq<string>)
  {
    forall p, q :: p in prefixes && q in prefixes && p != q ==> !StartsWith(q, p)
  }

  /** At most one alternative of a prefix-free tag opens a match at a position. */
  lemma OnlyAlternativeAt(line: string, j: nat, tag: Tag, p: string)
    requires PrefixFree(tag.prefixes) && p in tag.prefixes && OpensAt(line, j, p, tag.capture)
    ensures AlternativeAt(line, j, tag.prefixes, tag.capture) == Some(p)
  {
    var q := AlternativeAt(line, j, tag.prefixes, tag.capture).value;
    if q != p {
      if |q| <= |p| {
        assert p[..|q|] == line[j..j + |q|] == q;
        assert StartsWith(p, q);
      } else {
        assert q[..|p|] == line[j..j + |p|] == p;
        assert StartsWith(q, p);
      }
    }
  }

  /**
   * On a line `w + p + d + z` where `p` is an alternative of the tag, `d` a
   * run of its class that `z` does not continue, and the tag matches nowhere
   * in front of `p`, `search` captures exactly `d`.
   */
  lemma SearchOfTaggedLine(w: string, p: string, d: string, z: string, tag: Tag)
    requires PrefixFree(tag.prefixes) && p in tag.prefixes
    requires d != [] && AllIn(d, tag.capture) && (z == [] || !InClass(z[0], tag.capture))
    requires forall k :: 0 <= k < |w| ==> !MatchesAt(w + p + d + z, k, tag)
    ensures Search(w + p + d + z, tag, 0) == Some(d)
  {
    var line := w + p + d + z;
    TaggedLineOpens(w, p, d, z, tag);
    FirstMatchIs(line, tag, 0, |w|);
    TaggedLineCapture(w, p, d, z, tag);
    SearchCapturesAtFirstMatch(line, tag, 0);
  }

  /** In `w + p + d + z`, the alternative `p` opens a match right after `w`. */
  lemma TaggedLineOpens(w: string, p: string, d: string, z: string, tag: Tag)
    requires PrefixFree(tag.prefixes) && p in tag.prefixes && d != [] && AllIn(d, tag.capture)
    ensures |w| <= |w + p + d + z| && AlternativeAt(w + p + d + z, |w|, tag.prefixes, tag.capture) == Some(p)
  {
    var line := w + p + d + z;
    assert line[|w|..|w| + |p|] == p;
    assert line[|w| + |p|] == d[0];
    OnlyAlternativeAt(line, |w|, tag, p);
  }

  /** The group captured after `p` in `w + p + d + z` is `d`. */
  lemma TaggedLineCapture(w: string, p: string, d: string, z: string, tag: Tag)
    requires MatchesAt(w + p + d + z, |w|, tag)
    requires AlternativeAt(w + p + d + z, |w|, tag.prefixes, tag.capture) == Some(p)
    requires AllIn(d, tag.capture) && (z == [] || !InClass(z[0], tag.capture))
    ensures CaptureAt(w + p + d + z, |w|, tag) == d
  {
    var line := w + p + d + z;
    var j := |w| + |p|;
    assert line[j..j + |d|] == d;
    if z != [] {
      assert line[j + |d|] == z[0];
    }
    RunLengthOf(line, j, d, tag.capture);
  }

  /** The first match from `i` is at `j` when the tag matches at `j` and nowhere between. */
  lemma {:induction false} FirstMatchIs(line: string, tag: Tag, i: nat, j: nat)
    requires i <= j <= |line| && MatchesAt(line, j, tag)
    requires forall k :: i <= k < j ==> !MatchesAt(line, k, tag)
    ensures FirstMatch(line, tag, i) == Some(j)
    decreases j - i
  {
    if i < j {
      FirstMatchIs(line, tag, i + 1, j);
    }
  }

  /** The eight tags of the script are prefix-free. */
  lemma TagsArePrefixFree()
    ensures forall t :: t in Tags ==> PrefixFree(t.prefixes)
  {
    CostPrefixesFree();
    forall t | t in Tags && t != CostTag
      ensures PrefixFree(t.prefixes)
    {
      assert |t.prefixes| == 1;
    }
  }

  /** The three cost alternatives differ at their seventh character. */
  lemma CostPrefixesFree()
    ensures PrefixFree(CostTag.prefixes)
  {
    var c := CostTag.prefixes;
    assert c[0][6] == 'i' && c[1][6] == 'a' && c[2][6] == 'f';
    forall p, q | p in c && q in c && p != q
      ensures !StartsWith(q, p)
    {
      assert p[6] != q[6];
    }
  }

  /** The eight module-level variables of the script. */
  datatype Fields = Fields(
    stage: Option<string>, iteration: Option<string>, cost: Option<string>,
    relational: Option<string>, classes: Option<string>,
    min: Option<string>, max: Option<string>, mean: Option<string>)

  const Unset := Fields(None, None, None, None, None, None, None, None)

  /** Python's truth value of a variable holding `None` or a string. */
  predicate Truthy(o: Option<string>) { o.Some? && o.value != "" }

  /** The condition under which the loop appends a row. */
  predicate Complete(f: Fields)
  {
    Truthy(f.stage) && f.iteration.Some? && Truthy(f.cost) && Truthy(f.relational)
    && Truthy(f.classes) && Truthy(f.min) && Truthy(f.max) && Truthy(f.mean)
  }

  /** Every value held is a non-empty string (as every captured group is). */
  predicate NonEmptyValues(f: Fields)
  {
    (f.stage.Some? ==> f.stage.value != "") && (f.iteration.Some? ==> f.iteration.value != "")
    && (f.cost.Some? ==> f.cost.value != "") && (f.relational.Some? ==> f.relational.value != "")
    && (f.classes.Some? ==> f.classes.value != "") && (f.min.Some? ==> f.min.value != "")
    && (f.max.Some? ==> f.max.value != "") && (f.mean.Some? ==> f.mean.value != "")
  }

  predicate AllSet(f: Fields)
  {
    f.stage.Some? && f.iteration.Some? && f.cost.Some? && f.relational.Some?
    && f.classes.Some? && f.min.Some? && f.max.Some? && f.mean.Some?
  }

  /** The appended row, in header order. */
  function RowOf(f: Fields): (row: seq<string>)
    requires AllSet(f)
    ensures |row| == |Header| == 8
  {
    [f.stage.value, f.iteration.value, f.cost.value, f.relational.value,
     f.classes.value, f.min.value, f.max.value, f.mean.value]
  }

  /** A metric variable after the line: the new capture if the tag matched, else unchanged. */
  function Latest(current: Option<string>, found: Option<string>): Option<string>
  {
    if found.Some? then found else current
  }

  /** The eight tags, in the order the script searches for them. */
  const Tags: seq<Tag> := [StageTag, IterationTag, CostTag, RelationalTag, ClassesTag, MinTag, MaxTag, MeanTag]

  /** The captures of each tag of `tags` on `l`, in order. */
  function SearchEach(l: string, tags: seq<Tag>): (r: seq<Option<string>>)
    ensures |r| == |tags|
    ensures forall k :: 0 <= k < |r| ==> r[k].Some? ==> r[k].value != ""
  {
    if tags == [] then [] else [Search(l, tags[0], 0)] + SearchEach(l, tags[1..])
  }

  /**
   * The eight `search`es of one stripped line, as a `Fields` value: each field
   * holds its tag's capture, or None where the tag does not match.
   */
  function Captures(line: string): (c: Fields)
    ensures NonEmptyValues(c)
  {
    var r := SearchEach(Strip(line), Tags);
    Fields(r[0], r[1], r[2], r[3], r[4], r[5], r[6], r[7])
  }

  /** The captures of a line are the eight searches of the stripped line. */
  lemma CapturesAreTheSearches(line: string)
    ensures var l := Strip(line);
            Captures(line) == Fields(Search(l, StageTag, 0), Search(l, IterationTag, 0), Search(l, CostTag, 0),
                                     Search(l, RelationalTag, 0), Search(l, ClassesTag, 0),
                                     Search(l, MinTag, 0), Search(l, MaxTag, 0), Search(l, MeanTag, 0))
  {
    var l := Strip(line);
    var r := SearchEach(l, Tags);
    forall k | 0 <= k < |Tags| ensures r[k] == Search(l, Tags[k], 0) {
      SearchEachAt(l, Tags, k);
    }
  }

  /** The `k`-th capture is the search for the `k`-th tag. */
  lemma {:induction false} SearchEachAt(l: string, tags: seq<Tag>, k: nat)
    requires k < |tags|
    ensures SearchEach(l, tags)[k] == Search(l, tags[k], 0)
  {
    if k > 0 {
      SearchEachAt(l, tags[1..], k - 1);
    }
  }

  /**
   * The variables after one line's assignments, before the completeness test:
   * the stage assignment clears the iteration, which the iteration tag may then
   * set again; every other variable takes its tag's capture when there is one.
   */
  function Update(f: Fields, c: Fields): (r: Fields)
  {
    Fields(Latest(f.stage, c.stage),
           if c.iteration.Some? then c.iteration else if c.stage.Some? then None else f.iteration,
           Latest(f.cost, c.cost), Latest(f.relational, c.relational), Latest(f.classes, c.classes),
           Latest(f.min, c.min), Latest(f.max, c.max), Latest(f.mean, c.mean))
  }

  /** The script's state between two lines: the eight variables and the rows appended so far. */
  datatype Scan = Scan(fields: Fields, rows: seq<seq<string>>)

  const Start := Scan(Unset, [])

  /** One iteration of the line loop, given the line's captures. */
  function Advance(s: Scan, c: Fields): (r: Scan)
    ensures !Complete(r.fields)
    ensures |s.rows| <= |r.rows| <= |s.rows| + 1 && r.rows[..|s.rows|] == s.rows
    ensures NonEmptyValues(s.fields) && NonEmptyValues(c) ==> NonEmptyValues(r.fields)
  {
    var f := Update(s.fields, c);
    if Complete(f) then
      Scan(Unset.(stage := f.stage), s.rows + [RowOf(f)])
    else
      Scan(f, s.rows)
  }

  /** The captures of every line, in order. */
  function Scanned(lines: seq<string>): (cs: seq<Fields>)
    ensures |cs| == |lines|
    ensures forall k :: 0 <= k < |cs| ==> NonEmptyValues(cs[k])
  {
    if lines == [] then [] else Scanned(lines[..|lines| - 1]) + [Captures(lines[|lines| - 1])]
  }

  /** The loop run from state `s` over lines whose captures are `cs`. */
  function RunOver(s: Scan, cs: seq<Fields>): Scan
  {
    if cs == [] then s else Advance(RunOver(s, cs[..|cs| - 1]), cs[|cs| - 1])
  }

  /** The state after the loop has consumed `lines`. */
  function Run(lines: seq<string>): Scan { RunOver(Start, Scanned(lines)) }

  lemma RunSnoc(lines: seq<string>, i: nat)
    requires i < |lines|
    ensures Run(lines[..i + 1]) == Advance(Run(lines[..i]), Captures(lines[i]))
  {
    assert lines[..i + 1][..i] == lines[..i];
    assert Scanned(lines[..i + 1])[..i] == Scanned(lines[..i]);
  }

  /**
   * The eight `search`es of one line, in the script's order: the stripped line,
   * then the stage, iteration, cost, relational, classes, min, max and mean tags.
   */
  method SearchLine(line: string) returns (c: Fields)
    ensures c == Captures(line)
  {
    var linha := Strip(line);
    var matchStage := Search(linha, StageTag, 0);
    var matchIteracao := Search(linha, IterationTag, 0);
    var matchCusto := Search(linha, CostTag, 0);
    var matchRelacionais := Search(linha, RelationalTag, 0);
    var matchClasses := Search(linha, ClassesTag, 0);
    var matchMin := Search(linha, MinTag, 0);
    var matchMax := Search(linha, MaxTag, 0);
    var matchMedia := Search(linha, MeanTag, 0);
    CapturesAreTheSearches(line);
    c := Fields(matchStage, matchIteracao, matchCusto, matchRelacionais, matchClasses, matchMin, matchMax, matchMedia);
  }

  /**
   * The rest of one loop iteration: the assignments the matches make, then the
   * completeness test, which appends the row and clears every variable but the
   * stage.
   */
  method AbsorbLine(vars: Fields, dados: seq<seq<string>>, m: Fields) returns (vars': Fields, dados': seq<seq<string>>)
    ensures Scan(vars', dados') == Advance(Scan(vars, dados), m)
  {
    var stageAtual, iteracaoAtual, custoAtual, relacionaisAtual := vars.stage, vars.iteration, vars.cost, vars.relational;
    var classesTotal, minimo, maximo, media := vars.classes, vars.min, vars.max, vars.mean;
    if m.stage.Some? {
      stageAtual := m.stage;
      iteracaoAtual := None;
    }
    if m.iteration.Some? {
      iteracaoAtual := m.iteration;
    }
    if m.cost.Some? { custoAtual := m.cost; }
    if m.relational.Some? { relacionaisAtual := m.relational; }
    if m.classes.Some? { classesTotal := m.classes; }
    if m.min.Some? { minimo := m.min; }
    if m.max.Some? { maximo := m.max; }
    if m.mean.Some? { media := m.mean; }
    ghost var f := Fields(stageAtual, iteracaoAtual, custoAtual, relacionaisAtual, classesTotal, minimo, maximo, media);
    assert f == Update(vars, m);
    dados' := dados;
    if Truthy(stageAtual) && iteracaoAtual.Some? && Truthy(custoAtual) && Truthy(relacionaisAtual)
       && Truthy(classesTotal) && Truthy(minimo) && Truthy(maximo) && Truthy(media)
    {
      dados' := dados' + [[stageAtual.value, iteracaoAtual.value, custoAtual.value, relacionaisAtual.value,
                           classesTotal.value, minimo.value, maximo.value, media.value]];
      iteracaoAtual, custoAtual, relacionaisAtual, classesTotal := None, None, None, None;
      minimo, maximo, media := None, None, None;
    }
    vars' := Fields(stageAtual, iteracaoAtual, custoAtual, relacionaisAtual, classesTotal, minimo, maximo, media);
    assert Scan(vars', dados') == if Complete(f) then Scan(Unset.(stage := f.stage), dados + [RowOf(f)]) else Scan(f, dados);
  }

  /**
   * The script: the line loop over the eight variables (held in `vars`), then
   * the header and the collected rows as the output table.
   */
  method ExtractRows(lines: seq<string>) returns (table: seq<seq<string>>)
    ensures table == [Header] + Run(lines).rows
    ensures forall k :: 0 <= k < |table| ==> |table[k]| == 8
  {
    var dados: seq<seq<string>> := [];
    var vars := Unset;
    var i := 0;
    while i < |lines|
      invariant 0 <= i <= |lines|
      invariant Run(lines[..i]) == Scan(vars, dados)
    {
      var m := SearchLine(lines[i]);
      RunSnoc(lines, i);
      vars, dados := AbsorbLine(vars, dados, m);
      i := i + 1;
    }
    assert lines[..|lines|] == lines;
    RunRowsHaveEightFields(Start, Scanned(lines));
    table := [Header] + dados;
  }

  // ---------------------------------------------------------------------------
  // Properties of the accumulator, stated over the captures of the lines.

  /** Every variable the loop holds is a non-empty string or None. */
  lemma {:induction false} RunValuesNonEmpty(s: Scan, cs: seq<Fields>)
    requires NonEmptyValues(s.fields)
    requires forall k :: 0 <= k < |cs| ==> NonEmptyValues(cs[k])
    ensures NonEmptyValues(RunOver(s, cs).fields)
    decreases |cs|
  {
    if cs != [] {
      RunValuesNonEmpty(s, cs[..|cs| - 1]);
    }
  }

  /** For non-empty values, the script's truthiness test is "all eight are set". */
  lemma CompleteIffAllSet(f: Fields)
    requires NonEmptyValues(f)
    ensures Complete(f) <==> AllSet(f)
  {
  }

  /**
   * A row is appended exactly when, after the line's assignments, stage is set,
   * iteration is not None and the six metrics are set; it is then appended after
   * the earlier rows, as the eight values in header order.
   */
  lemma AdvanceAppendsIffAllSet(s: Scan, c: Fields)
    requires NonEmptyValues(s.fields) && NonEmptyValues(c)
    ensures var f := Update(s.fields, c);
            && (|Advance(s, c).rows| == |s.rows| + 1 <==> AllSet(f))
            && (AllSet(f) ==> Advance(s, c).rows == s.rows + [RowOf(f)])
            && (!AllSet(f) ==> Advance(s, c) == Scan(f, s.rows))
  {
    var f := Update(s.fields, c);
    assert NonEmptyValues(f);
    CompleteIffAllSet(f);
  }

  /** After an append, iteration and the six metrics are cleared and the stage is kept. */
  lemma AdvanceClearsAllButStage(s: Scan, c: Fields)
    requires |Advance(s, c).rows| > |s.rows|
    ensures Advance(s, c).fields == Unset.(stage := Update(s.fields, c).stage)
    ensures Advance(s, c).fields.stage.Some?
  {
  }

  /**
   * A line that carries only a stage tag sets the stage and clears the
   * iteration; every pending metric survives, and nothing is appended.
   */
  lemma StageLineClearsOnlyIteration(s: Scan, v: string)
    ensures Advance(s, Unset.(stage := Some(v))) == Scan(s.fields.(stage := Some(v), iteration := None), s.rows)
  {
  }

  /** A line on which no tag matches leaves every variable and the rows unchanged. */
  lemma UntaggedLineChangesNothing(s: Scan)
    requires !Complete(s.fields)
    ensures Advance(s, Unset) == s
  {
  }

  /**
   * The stage is assigned before the iteration is read, and the metrics before
   * the test: one line carrying every tag appends a row made of its own eight
   * captures, whatever was pending before.
   */
  lemma EveryTagLineAppends(s: Scan, c: Fields)
    requires AllSet(c) && NonEmptyValues(c)
    ensures Advance(s, c).rows == s.rows + [RowOf(c)]
    ensures Advance(s, c).fields == Unset.(stage := c.stage)
  {
    assert Update(s.fields, c) == c;
  }

  /** The number of lines on which `Iteração: (\d+)` matches. */
  function IterationLines(cs: seq<Fields>): nat
  {
    if cs == [] then 0 else IterationLines(cs[..|cs| - 1]) + (if cs[|cs| - 1].iteration.Some? then 1 else 0)
  }

  /**
   * Every append consumes the iteration value, so the rows (plus a pending
   * iteration, if any) never outnumber the lines that set an iteration.
   */
  lemma {:induction false} RowsAtMostIterationLines(cs: seq<Fields>)
    ensures |RunOver(Start, cs).rows| + (if RunOver(Start, cs).fields.iteration.Some? then 1 else 0) <= IterationLines(cs)
    decreases |cs|
  {
    if cs != [] {
      RowsAtMostIterationLines(cs[..|cs| - 1]);
    }
  }

  /** Every emitted row has eight fields; no input line, no row. */
  lemma {:induction false} RunRowsHaveEightFields(s: Scan, cs: seq<Fields>)
    requires forall k :: 0 <= k < |s.rows| ==> |s.rows[k]| == 8
    ensures forall k :: 0 <= k < |RunOver(s, cs).rows| ==> |RunOver(s, cs).rows[k]| == 8
    ensures cs == [] ==> RunOver(s, cs) == s
    decreases |cs|
  {
    if cs != [] {
      var prev := RunOver(s, cs[..|cs| - 1]);
      RunRowsHaveEightFields(s, cs[..|cs| - 1]);
      var r := RunOver(s, cs);
      assert r.rows[..|prev.rows|] == prev.rows;
      forall k | 0 <= k < |r.rows| ensures |r.rows[k]| == 8 {
        if k < |prev.rows| {
          assert r.rows[k] == prev.rows[k];
        }
      }
    }
  }

  /**
   * Without a new stage tag the stage is kept, so every row appended meanwhile
   * carries the last stage seen.
   */
  lemma {:induction false} StageIsKeptBetweenStageLines(s: Scan, cs: seq<Fields>)
    requires forall k :: 0 <= k < |cs| ==> cs[k].stage.None?
    ensures RunOver(s, cs).fields.stage == s.fields.stage
    ensures |s.rows| <= |RunOver(s, cs).rows| && RunOver(s, cs).rows[..|s.rows|] == s.rows
    ensures forall k :: |s.rows| <= k < |RunOver(s, cs).rows| ==>
              |RunOver(s, cs).rows[k]| > 0 && Some(RunOver(s, cs).rows[k][0]) == s.fields.stage
    decreases |cs|
  {
    if cs != [] {
      var init := cs[..|cs| - 1];
      StageIsKeptBetweenStageLines(s, init);
      var mid := RunOver(s, init);
      var r := RunOver(s, cs);
      assert r.rows[..|mid.rows|] == mid.rows;
      forall k | |s.rows| <= k < |r.rows|
        ensures |r.rows[k]| > 0 && Some(r.rows[k][0]) == s.fields.stage
      {
        if k < |mid.rows| {
          assert r.rows[k] == mid.rows[k];
        } else {
          var f := Update(mid.fields, cs[|cs| - 1]);
          assert f.stage == mid.fields.stage;
          assert Complete(f) && r.rows == mid.rows + [RowOf(f)];
          assert k == |mid.rows| && r.rows[k] == RowOf(f);
        }
      }
    } else {
      assert RunOver(s, cs) == s;
    }
  }
}
