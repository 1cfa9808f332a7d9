/**
 * The file names `rulesInfo_histogram.py` works with: the glob pattern that
 * selects the rule files of a query, `fnmatch` with `*` as its only wildcard,
 * and the `stage_(\\d+)_iter_(\\d+)` search that reads a stage and an
 * iteration out of a path.
 */
module RuleFileNames {
  import opened Wrappers
  import opened Text

  // ---------------------------------------------------------------------------
  // The glob pattern and `fnmatch` with `*` as its only wildcard.

  const StagePrefix: string := "stage_"
  const IterInfix: string := "_iter_"
  const IterFileSuffix: string := "_rules_application.csv"

  /** `stage if stage else '*'`: no stage, or the empty one, selects every stage. */
  function StagePart(stage: Option<string>): (part: string)
    ensures stage.None? || stage.value == [] ==> part == "*"
    ensures stage.Some? && stage.value != [] ==> part == stage.value
  {
    if stage.None? || stage.value == [] then "*" else stage.value
  }

  function RulePattern(stage: Option<string>): string
  {
    StagePrefix + StagePart(stage) + IterInfix + "*" + IterFileSuffix
  }

  /** Whether `name` matches `pattern`, where `*` matches any run of characters. */
  predicate GlobMatch(pattern: string, name: string)
    decreases |pattern| + |name|
  {
    if pattern == [] then name == []
    else if pattern[0] == '*' then
      GlobMatch(pattern[1..], name) || (name != [] && GlobMatch(pattern, name[1..]))
    else
      name != [] && name[0] == pattern[0] && GlobMatch(pattern[1..], name[1..])
  }

  /** A literal piece of a pattern matches itself. */
  lemma {:induction false} GlobLiteral(lit: string, pattern: string, name: string)
    requires '*' !in lit && GlobMatch(pattern, name)
    ensures GlobMatch(lit + pattern, lit + name)
    decreases |lit|
  {
    if lit != [] {
      assert (lit + pattern)[1..] == lit[1..] + pattern;
      assert (lit + name)[1..] == lit[1..] + name;
      GlobLiteral(lit[1..], pattern, name);
    } else {
      assert lit + pattern == pattern && lit + name == name;
    }
  }

  /** A `*` matches any text in front of what the rest of the pattern matches. */
  lemma {:induction false} GlobStar(skipped: string, pattern: string, name: string)
    requires GlobMatch(pattern, name)
    ensures GlobMatch("*" + pattern, skipped + name)
    decreases |skipped|
  {
    var p := "*" + pattern;
    assert p[1..] == pattern;
    if skipped == [] {
      assert skipped + name == name;
    } else {
      assert (skipped + name)[1..] == skipped[1..] + name;
      GlobStar(skipped[1..], pattern, name);
    }
  }

  /** A pattern of three literal pieces around two stars matches those pieces with any text in place of the stars. */
  lemma GlobTwoStars(p1: string, p2: string, p3: string, a: string, b: string)
    requires '*' !in p1 && '*' !in p2 && '*' !in p3
    ensures GlobMatch(p1 + "*" + p2 + "*" + p3, p1 + a + p2 + b + p3)
  {
    GlobLiteral(p3, [], []);
    assert p3 + [] == p3;
    GlobStar(b, p3, p3);
    GlobLiteral(p2, "*" + p3, b + p3);
    GlobStar(a, p2 + ("*" + p3), p2 + (b + p3));
    GlobLiteral(p1, "*" + (p2 + ("*" + p3)), a + (p2 + (b + p3)));
    assert p1 + ("*" + (p2 + ("*" + p3))) == p1 + "*" + p2 + "*" + p3;
    assert p1 + (a + (p2 + (b + p3))) == p1 + a + p2 + b + p3;
  }

  /** Every file named `stage_<a>_iter_<b>_rules_application.csv` matches the all-stages pattern. */
  lemma IterFileMatches(a: string, b: string)
    ensures GlobMatch(RulePattern(None), StagePrefix + a + IterInfix + b + IterFileSuffix)
  {
    assert '*' !in StagePrefix && '*' !in IterInfix && '*' !in IterFileSuffix;
    GlobTwoStars(StagePrefix, IterInfix, IterFileSuffix, a, b);
  }

  /** A literal piece at the front of a pattern is matched by the same text at the front of the name. */
  lemma {:induction false} GlobLiteralPrefix(lit: string, pattern: string, name: string)
    requires '*' !in lit && GlobMatch(lit + pattern, name)
    ensures |lit| <= |name| && name[..|lit|] == lit && GlobMatch(pattern, name[|lit|..])
    decreases |lit|
  {
    if lit == [] {
      assert lit + pattern == pattern && name[|lit|..] == name;
    } else {
      var q := lit + pattern;
      assert q[0] == lit[0] && lit[0] in lit && q[1..] == lit[1..] + pattern;
      GlobLiteralPrefix(lit[1..], pattern, name[1..]);
      assert name[1..][|lit| - 1..] == name[|lit|..];
      assert name[..|lit|] == [name[0]] + name[1..][..|lit| - 1];
    }
  }

  /** A `*` followed by a literal piece: the piece occurs in the name, and the rest of the pattern matches what follows it. */
  lemma {:induction false} GlobStarLiteral(lit: string, pattern: string, name: string)
    requires '*' !in lit && GlobMatch("*" + (lit + pattern), name)
    ensures exists j :: 0 <= j && j + |lit| <= |name| && OccursAt(name, j, lit) && GlobMatch(pattern, name[j + |lit|..])
    decreases |name|
  {
    var q := "*" + (lit + pattern);
    assert q[0] == '*' && q[1..] == lit + pattern;
    if GlobMatch(lit + pattern, name) {
      GlobLiteralPrefix(lit, pattern, name);
      assert OccursAt(name, 0, lit) && name[0 + |lit|..] == name[|lit|..];
    } else {
      GlobStarLiteral(lit, pattern, name[1..]);
      var j :| 0 <= j && j + |lit| <= |name[1..]| && OccursAt(name[1..], j, lit) && GlobMatch(pattern, name[1..][j + |lit|..]);
      assert name[j + 1..j + 1 + |lit|] == name[1..][j..j + |lit|];
      assert name[1..][j + |lit|..] == name[j + 1 + |lit|..];
      assert OccursAt(name, j + 1, lit);
    }
  }

  /** In a name matched by `*<p2>*<p3>`, `p2` occurs with room for `p3` after it. */
  lemma MiddlePieceOccurs(p2: string, p3: string, t: string)
    requires '*' !in p2 && '*' !in p3
    ensures GlobMatch("*" + (p2 + ("*" + p3)), t) ==>
              exists j :: 0 <= j && j + |p2| + |p3| <= |t| && OccursAt(t, j, p2)
  {
    if GlobMatch("*" + (p2 + ("*" + p3)), t) {
      GlobStarLiteral(p2, "*" + p3, t);
      var j :| 0 <= j && j + |p2| <= |t| && OccursAt(t, j, p2) && GlobMatch("*" + p3, t[j + |p2|..]);
      GlobStarLiteralLength(p3, t[j + |p2|..]);
    }
  }

  /** A name matched by `*<lit>` is at least as long as `lit`. */
  lemma GlobStarLiteralLength(lit: string, name: string)
    requires '*' !in lit && GlobMatch("*" + lit, name)
    ensures |lit| <= |name|
  {
    var nothing: string := [];
    assert lit + nothing == lit;
    GlobStarLiteral(lit, nothing, name);
  }

  /**
   * A name made of the first and last pieces of a two-star pattern around
   * text that lacks the first character of the middle piece does not match:
   * the middle piece has nowhere to go.
   */
  lemma NoMatchWithoutMiddle(p1: string, p2: string, p3: string, d: string)
    requires '*' !in p1 && '*' !in p2 && '*' !in p3 && p2 != []
    requires forall k :: 0 <= k < |d| ==> d[k] != p2[0]
    ensures !GlobMatch(p1 + "*" + p2 + "*" + p3, p1 + d + p3)
  {
    var tail := "*" + (p2 + ("*" + p3));
    var t := d + p3;
    Regroup(p1, p2, p3, d);
    assert GlobMatch(p1 + tail, p1 + t) ==> GlobMatch(tail, t) by {
      if GlobMatch(p1 + tail, p1 + t) {
        GlobLiteralPrefix(p1, tail, p1 + t);
        assert (p1 + t)[|p1|..] == t;
      }
    }
    forall j | 0 <= j && j + |p2| + |p3| <= |t| ensures !OccursAt(t, j, p2) {
      assert t[j..j + |p2|][0] == t[j] == d[j];
    }
    MiddlePieceOccurs(p2, p3, t);
  }

  /** Regrouping the concatenations of the two-star pattern and of the name it is tried on. */
  lemma Regroup(p1: string, p2: string, p3: string, d: string)
    ensures p1 + "*" + p2 + "*" + p3 == p1 + ("*" + (p2 + ("*" + p3)))
    ensures p1 + d + p3 == p1 + (d + p3)
  {
  }

  /**
   * The optimizer names its per-stage rule file `stage_<n>_rules_application.csv`,
   * with no `_iter_` part, so the all-stages pattern never matches it.
   */
  lemma OptimizerRuleFileNotMatched(stage: string)
    requires AllDigits(stage)
    ensures !GlobMatch(RulePattern(None), StagePrefix + stage + IterFileSuffix)
  {
    assert '*' !in StagePrefix && '*' !in IterInfix && '*' !in IterFileSuffix;
    assert IterInfix[0] == '_' && IterFileSuffix != [];
    NoMatchWithoutMiddle(StagePrefix, IterInfix, IterFileSuffix, stage);
  }

  // ---------------------------------------------------------------------------
  // `re.search(r'stage_(\d+)_iter_(\d+)', file)`.

  /**
   * The two captures of a match of `stage_(\d+)_iter_(\d+)` that starts at
   * `i`: `stage_`, a maximal digit run, `_iter_`, a maximal digit run.
   */
  function StageIterAt(s: string, i: nat): (r: Option<(string, string)>)
    requires i <= |s|
    ensures r.Some? ==> r.value.0 != [] && AllDigits(r.value.0) && r.value.1 != [] && AllDigits(r.value.1)
  {
    if !OccursAt(s, i, StagePrefix) then None
    else
      var a := i + 6;
      var n := RunLength(s, a, Digits);
      if n == 0 || !OccursAt(s, a + n, IterInfix) then None
      else
        var b := a + n + 6;
        var m := RunLength(s, b, Digits);
        if m == 0 then None
        else Some((s[a..a + n], s[b..b + m]))
  }

  /** The first position at or after `i` where a match starts. */
  function FindStageIter(s: string, i: nat): (r: Option<nat>)
    requires i <= |s|
    ensures r.Some? ==> i <= r.value <= |s| && StageIterAt(s, r.value).Some?
    ensures forall j :: i <= j <= |s| && (r.None? || j < r.value) ==> StageIterAt(s, j).None?
    decreases |s| - i
  {
    if StageIterAt(s, i).Some? then Some(i)
    else if i == |s| then None
    else FindStageIter(s, i + 1)
  }

  /** The search from `i` stops at `k` when there is a match at `k` and none from `i` up to it. */
  lemma {:induction false} FirstMatchFrom(s: string, i: nat, k: nat)
    requires i <= k <= |s| && StageIterAt(s, k).Some?
    requires forall j :: i <= j < k ==> StageIterAt(s, j).None?
    ensures FindStageIter(s, i) == Some(k)
    decreases k - i
  {
    if i < k {
      FirstMatchFrom(s, i + 1, k);
    }
  }

  /** The first match is at `k` when there is one at `k` and none before it. */
  lemma FirstMatchAt(s: string, k: nat)
    requires k <= |s| && StageIterAt(s, k).Some?
    requires forall j :: 0 <= j < k ==> StageIterAt(s, j).None?
    ensures FindStageIter(s, 0) == Some(k)
  {
    FirstMatchFrom(s, 0, k);
  }

  /** A digit run is exactly as long as the digit string that fills it when no digit follows. */
  lemma DigitRunOf(s: string, a: nat, d: string)
    requires d != [] && AllDigits(d) && OccursAt(s, a, d)
    requires a + |d| == |s| || !IsDigit(s[a + |d|])
    ensures RunLength(s, a, Digits) == |d|
  {
    RunLengthOf(s, a, d, Digits);
  }

  /** A match is `stage_`, a digit run, `_iter_` and a digit run that no digit follows. */
  lemma StageIterAtShape(s: string, i: nat)
    requires i <= |s| && StageIterAt(s, i).Some?
    ensures var (d1, d2) := StageIterAt(s, i).value;
            var b := i + 6 + |d1| + 6;
            OccursAt(s, i, StagePrefix) && OccursAt(s, i + 6, d1) &&
            OccursAt(s, i + 6 + |d1|, IterInfix) && OccursAt(s, b, d2) &&
            (b + |d2| == |s| || !IsDigit(s[b + |d2|]))
  {
    assert |StagePrefix| == 6 && |IterInfix| == 6;
  }

  /** Conversely, `stage_`, a digit string, `_iter_` and a digit string that no digit follows are a match with those captures. */
  lemma StageIterFromPieces(s: string, i: nat, d1: string, d2: string)
    requires i <= |s|
    requires d1 != [] && AllDigits(d1) && d2 != [] && AllDigits(d2)
    requires var b := i + 6 + |d1| + 6;
             OccursAt(s, i, StagePrefix) && OccursAt(s, i + 6, d1) &&
             OccursAt(s, i + 6 + |d1|, IterInfix) && OccursAt(s, b, d2) &&
             (b + |d2| == |s| || !IsDigit(s[b + |d2|]))
    ensures StageIterAt(s, i) == Some((d1, d2))
  {
    InfixShape();
    assert s[i + 6 + |d1|] == IterInfix[0];
    DigitRunOf(s, i + 6, d1);
    DigitRunOf(s, i + 6 + |d1| + 6, d2);
  }

  lemma InfixShape()
    ensures |StagePrefix| == 6 && |IterInfix| == 6 && IterInfix[0] == '_' && !IsDigit(IterInfix[0])
  {
  }

  /** Where each of six concatenated pieces sits. */
  lemma PiecesAt(p0: string, p1: string, p2: string, p3: string, p4: string, p5: string)
    ensures var s := p0 + p1 + p2 + p3 + p4 + p5;
            var i2 := |p0| + |p1|;
            var i3 := i2 + |p2|;
            var i4 := i3 + |p3|;
            var i5 := i4 + |p4|;
            |s| == i5 + |p5| &&
            OccursAt(s, |p0|, p1) && OccursAt(s, i2, p2) && OccursAt(s, i3, p3) && OccursAt(s, i4, p4) &&
            (p5 != [] ==> s[i5] == p5[0])
  {
  }

  /** Text with `stage_<d1>_iter_<d2>` at `|w|`, then a non-digit, has a match there with those captures. */
  lemma StageIterOfDigits(w: string, d1: string, d2: string, z: string)
    requires d1 != [] && AllDigits(d1) && d2 != [] && AllDigits(d2)
    requires z == [] || !IsDigit(z[0])
    ensures StageIterAt(w + StagePrefix + d1 + IterInfix + d2 + z, |w|) == Some((d1, d2))
  {
    assert |StagePrefix| == 6 && |IterInfix| == 6;
    PiecesAt(w, StagePrefix, d1, IterInfix, d2, z);
    StageIterFromPieces(w + StagePrefix + d1 + IterInfix + d2 + z, |w|, d1, d2);
  }

  /** A directory that holds no `stage_` hides no match in front of what follows its `/`. */
  lemma NoMatchInDirectory(dir: string, path: string)
    requires forall j :: 0 <= j && j + 6 <= |dir| ==> !OccursAt(dir, j, StagePrefix)
    requires |dir| < |path| && path[..|dir|] == dir && path[|dir|] == '/'
    ensures forall j :: 0 <= j <= |dir| ==> StageIterAt(path, j).None?
  {
    assert |StagePrefix| == 6;
    forall j | 0 <= j <= |dir| ensures !OccursAt(path, j, StagePrefix) {
      if j + 6 <= |dir| {
        assert !OccursAt(dir, j, StagePrefix);
        assert path[j..j + 6] == path[..|dir|][j..j + 6] == dir[j..j + 6];
      } else if j + 6 <= |path| {
        var k := |dir| - j;
        assert path[j..j + 6][k] == '/';
        assert '/' !in StagePrefix && StagePrefix[k] in StagePrefix;
        assert path[j..j + 6] != StagePrefix;
      }
    }
  }

  /** The path of an iteration file has a match where its file name starts. */
  lemma IterFileMatchAt(dir: string, d1: string, d2: string)
    requires d1 != [] && AllDigits(d1) && d2 != [] && AllDigits(d2)
    ensures var path := dir + "/" + StagePrefix + d1 + IterInfix + d2 + IterFileSuffix;
            |dir| + 1 <= |path| && StageIterAt(path, |dir| + 1) == Some((d1, d2))
  {
    assert IterFileSuffix[0] == '_';
    StageIterOfDigits(dir + "/", d1, d2, IterFileSuffix);
  }

  /** Nor has it a match in the directory part, when the directory holds no `stage_`. */
  lemma NoMatchBeforeIterFile(dir: string, d1: string, d2: string)
    requires forall j :: 0 <= j && j + 6 <= |dir| ==> !OccursAt(dir, j, StagePrefix)
    ensures var path := dir + "/" + StagePrefix + d1 + IterInfix + d2 + IterFileSuffix;
            forall j :: 0 <= j <= |dir| ==> StageIterAt(path, j).None?
  {
    var w := dir + "/";
    var path := w + StagePrefix + d1 + IterInfix + d2 + IterFileSuffix;
    PrefixOfConcat(w, StagePrefix + d1 + IterInfix + d2 + IterFileSuffix, path);
    assert path[..|dir|] == w[..|dir|] == dir;
    NoMatchInDirectory(dir, path);
  }

  /**
   * In the path of an iteration file under a directory without `stage_` in
   * it, the first match is the file name's, and it yields the digits written
   * there.
   */
  lemma StageIterOfIterFile(dir: string, d1: string, d2: string)
    requires forall j :: 0 <= j && j + 6 <= |dir| ==> !OccursAt(dir, j, StagePrefix)
    requires d1 != [] && AllDigits(d1) && d2 != [] && AllDigits(d2)
    ensures var path := dir + "/" + StagePrefix + d1 + IterInfix + d2 + IterFileSuffix;
            FindStageIter(path, 0) == Some(|dir| + 1) &&
            StageIterAt(path, |dir| + 1) == Some((d1, d2))
  {
    var path := dir + "/" + StagePrefix + d1 + IterInfix + d2 + IterFileSuffix;
    IterFileMatchAt(dir, d1, d2);
    NoMatchBeforeIterFile(dir, d1, d2);
    FirstMatchAt(path, |dir| + 1);
  }

  /** The left operand of a concatenation is its prefix. */
  lemma PrefixOfConcat(w: string, rest: string, path: string)
    requires path == w + rest
    ensures |w| <= |path| && path[..|w|] == w && forall k :: 0 <= k < |w| ==> path[k] == w[k]
  {
  }

}
