/**
 * The "natural" order in which `rulesInfo_histogram.py` loads the rule files:
 * each path becomes the list of its maximal digit runs and ASCII-letter runs
 * (other characters are dropped), digit runs compared as integers, and the
 * files are sorted by that list with Python's stable `list.sort`.
 */
module NaturalOrder {
  import opened Text

  /** One piece of a sort key: a digit run read as a number, or a letter run. */
  datatype Token = Num(value: nat) | Word(text: string)

  /** The tokens of `re.findall(r'\d+|[A-Za-z]+', s)`, digit runs converted with `int`. */
  function NaturalKey(s: string): seq<Token>
    decreases |s|
  {
    if s == [] then []
    else if IsDigit(s[0]) then
      var n := RunLength(s, 0, Digits);
      [Num(ParseNat(s[..n]))] + NaturalKey(s[n..])
    else if IsAsciiLetter(s[0]) then
      var n := RunLength(s, 0, Letters);
      [Word(s[..n])] + NaturalKey(s[n..])
    else NaturalKey(s[1..])
  }

  /** A character that neither a digit run nor a letter run can contain. */
  predicate IsSeparator(c: char) { !IsDigit(c) && !IsAsciiLetter(c) }

  /** The run from the start is the one that ends at the first character outside the class. */
  lemma RunLengthIs(s: string, cls: CharClass, k: nat)
    requires k <= |s| && (k == |s| || !InClass(s[k], cls))
    requires forall j :: 0 <= j < k ==> InClass(s[j], cls)
    ensures RunLength(s, 0, cls) == k
  {
  }

  /** A run that stops before the end of `s` is not lengthened by what follows `s`. */
  lemma RunLengthAppend(s: string, t: string, cls: CharClass)
    requires s != [] && !InClass(s[|s| - 1], cls)
    ensures RunLength(s + t, 0, cls) == RunLength(s, 0, cls)
  {
    var n := RunLength(s, 0, cls);
    assert n < |s|;
    assert forall j :: 0 <= j < |s| ==> (s + t)[j] == s[j];
    RunLengthIs(s + t, cls, n);
  }

  /** A string that ends in a separator is tokenised apart from what follows it. */
  lemma {:induction false} NaturalKeyAppend(s: string, t: string)
    requires s == [] || IsSeparator(s[|s| - 1])
    ensures NaturalKey(s + t) == NaturalKey(s) + NaturalKey(t)
    decreases |s|
  {
    if s == [] {
      assert s + t == t;
    } else if IsDigit(s[0]) || IsAsciiLetter(s[0]) {
      var cls := if IsDigit(s[0]) then Digits else Letters;
      RunLengthAppend(s, t, cls);
      var n := RunLength(s, 0, cls);
      assert (s + t)[..n] == s[..n];
      assert (s + t)[n..] == s[n..] + t;
      NaturalKeyAppend(s[n..], t);
    } else {
      assert (s + t)[1..] == s[1..] + t;
      NaturalKeyAppend(s[1..], t);
    }
  }

  /** A number written out and followed by a non-digit becomes one `Num` token. */
  lemma NaturalKeyOfNumber(m: nat, t: string)
    requires t == [] || !IsDigit(t[0])
    ensures NaturalKey(NatToString(m) + t) == [Num(m)] + NaturalKey(t)
  {
    var d := NatToString(m);
    var s := d + t;
    assert forall k :: 0 <= k < |d| ==> s[k] == d[k];
    RunLengthIs(s, Digits, |d|);
    assert s[..|d|] == d && s[|d|..] == t;
    ParseNatToString(m);
  }

  // ---------------------------------------------------------------------------
  // Python's comparison of keys: lists lexicographically, numbers by value,
  // strings by code point.

  predicate StringLess(a: string, b: string)
  {
    if a == [] then b != []
    else if b == [] then false
    else a[0] < b[0] || (a[0] == b[0] && StringLess(a[1..], b[1..]))
  }

  /** Python raises `TypeError` when it compares a number with a string; here numbers come first. */
  predicate TokenLess(x: Token, y: Token)
  {
    match (x, y)
    case (Num(m), Num(n)) => m < n
    case (Word(a), Word(b)) => StringLess(a, b)
    case (Num(_), Word(_)) => true
    case (Word(_), Num(_)) => false
  }

  predicate KeyLess(a: seq<Token>, b: seq<Token>)
  {
    if a == [] then b != []
    else if b == [] then false
    else TokenLess(a[0], b[0]) || (a[0] == b[0] && KeyLess(a[1..], b[1..]))
  }

  lemma {:induction false} StringLessIrreflexive(a: string)
    ensures !StringLess(a, a)
  {
    if a != [] {
      StringLessIrreflexive(a[1..]);
    }
  }

  lemma {:induction false} StringLessAsymmetric(a: string, b: string)
    requires StringLess(a, b)
    ensures !StringLess(b, a)
  {
    if a != [] && b != [] && a[0] == b[0] {
      StringLessAsymmetric(a[1..], b[1..]);
    }
  }

  lemma {:induction false} StringLessTransitive(a: string, b: string, c: string)
    requires StringLess(a, b) && StringLess(b, c)
    ensures StringLess(a, c)
  {
    if a != [] && a[0] == b[0] && b[0] == c[0] {
      StringLessTransitive(a[1..], b[1..], c[1..]);
    }
  }

  lemma TokenLessAsymmetric(x: Token, y: Token)
    requires TokenLess(x, y)
    ensures !TokenLess(y, x) && x != y
  {
    if x.Word? && y.Word? {
      StringLessAsymmetric(x.text, y.text);
      StringLessIrreflexive(x.text);
    }
  }

  lemma TokenLessTransitive(x: Token, y: Token, z: Token)
    requires TokenLess(x, y) && TokenLess(y, z)
    ensures TokenLess(x, z)
  {
    if x.Word? && y.Word? && z.Word? {
      StringLessTransitive(x.text, y.text, z.text);
    }
  }

  /** No key is less than a key that is less than it. */
  lemma {:induction false} KeyLessAsymmetric(a: seq<Token>, b: seq<Token>)
    requires KeyLess(a, b)
    ensures !KeyLess(b, a)
  {
    if a != [] && b != [] {
      if TokenLess(a[0], b[0]) {
        TokenLessAsymmetric(a[0], b[0]);
      } else {
        KeyLessAsymmetric(a[1..], b[1..]);
      }
    }
  }

  lemma {:induction false} KeyLessTransitive(a: seq<Token>, b: seq<Token>, c: seq<Token>)
    requires KeyLess(a, b) && KeyLess(b, c)
    ensures KeyLess(a, c)
  {
    if a != [] {
      if TokenLess(a[0], b[0]) && TokenLess(b[0], c[0]) {
        TokenLessTransitive(a[0], b[0], c[0]);
      } else if TokenLess(a[0], b[0]) || TokenLess(b[0], c[0]) {
      } else {
        KeyLessTransitive(a[1..], b[1..], c[1..]);
      }
    }
  }

  /** Keys that share a prefix compare as their remainders do. */
  lemma {:induction false} KeyLessCommonPrefix(p: seq<Token>, a: seq<Token>, b: seq<Token>)
    ensures KeyLess(p + a, p + b) == KeyLess(a, b)
  {
    if p == [] {
      assert p + a == a && p + b == b;
    } else {
      assert (p + a)[0] == p[0] == (p + b)[0];
      assert (p + a)[1..] == p[1..] + a && (p + b)[1..] == p[1..] + b;
      StringLessIrreflexive(if p[0].Word? then p[0].text else "");
      KeyLessCommonPrefix(p[1..], a, b);
    }
  }

  lemma {:induction false} KeyLessIrreflexive(a: seq<Token>)
    ensures !KeyLess(a, a)
  {
    if a != [] {
      if a[0].Word? {
        StringLessIrreflexive(a[0].text);
      }
      KeyLessIrreflexive(a[1..]);
    }
  }

  /** The key of a path with a number between a separator and a non-digit. */
  lemma NaturalKeyAround(prefix: string, m: nat, suffix: string)
    requires prefix == [] || IsSeparator(prefix[|prefix| - 1])
    requires suffix == [] || !IsDigit(suffix[0])
    ensures NaturalKey(prefix + NatToString(m) + suffix) == NaturalKey(prefix) + ([Num(m)] + NaturalKey(suffix))
  {
    var d := NatToString(m);
    var x := d + suffix;
    assert NaturalKey(prefix + d + suffix) == NaturalKey(prefix) + NaturalKey(x) by {
      assert prefix + d + suffix == prefix + x;
      NaturalKeyAppend(prefix, x);
    }
    assert NaturalKey(x) == [Num(m)] + NaturalKey(suffix) by {
      NaturalKeyOfNumber(m, suffix);
    }
  }

  /** Keys that differ only in their first number compare as those numbers. */
  lemma KeyLessFirstNumber(m: nat, n: nat, t: seq<Token>)
    ensures KeyLess([Num(m)] + t, [Num(n)] + t) <==> m < n
  {
    assert ([Num(m)] + t)[1..] == t && ([Num(n)] + t)[1..] == t;
    KeyLessIrreflexive(t);
  }

  /**
   * Paths that differ only in a number between a separator and a non-digit
   * are ordered by that number: `iter_9` comes before `iter_10`.
   */
  lemma NumbersOrderNumerically(prefix: string, m: nat, n: nat, suffix: string)
    requires prefix == [] || IsSeparator(prefix[|prefix| - 1])
    requires suffix == [] || !IsDigit(suffix[0])
    ensures KeyLess(NaturalKey(prefix + NatToString(m) + suffix), NaturalKey(prefix + NatToString(n) + suffix)) <==> m < n
  {
    NaturalKeyAround(prefix, m, suffix);
    NaturalKeyAround(prefix, n, suffix);
    var t := NaturalKey(suffix);
    KeyLessCommonPrefix(NaturalKey(prefix), [Num(m)] + t, [Num(n)] + t);
    KeyLessFirstNumber(m, n, t);
  }

  // ---------------------------------------------------------------------------
  // `all_files.sort(key=...)`: a stable sort by key, ascending. The sort is
  // stated for any strict order and then used with the order of the keys.

  /** `less` is a strict order: asymmetric and transitive. */
  ghost predicate StrictOrder<T(!new)>(less: (T, T) -> bool)
  {
    && (forall a, b :: less(a, b) ==> !less(b, a))
    && (forall a, b, c :: less(a, b) && less(b, c) ==> less(a, c))
  }

  /** No element is less than one that comes earlier. */
  predicate SortedBy<T>(s: seq<T>, less: (T, T) -> bool)
  {
    forall i, j :: 0 <= i < j < |s| ==> !less(s[j], s[i])
  }

  /** Inserts `x` after every element not greater than it, so equal elements keep their arrival order. */
  function InsertBy<T>(s: seq<T>, x: T, less: (T, T) -> bool): (r: seq<T>)
    ensures multiset(r) == multiset(s) + multiset{x}
  {
    if s == [] then [x]
    else if !less(x, s[0]) then
      assert s == [s[0]] + s[1..];
      [s[0]] + InsertBy(s[1..], x, less)
    else
      [x] + s
  }

  /** Inserting at the front keeps the order when `x` is less than the first element. */
  lemma InsertAtFrontSorted<T(!new)>(s: seq<T>, x: T, less: (T, T) -> bool)
    requires StrictOrder(less) && SortedBy(s, less) && s != [] && less(x, s[0])
    ensures SortedBy([x] + s, less)
  {
    var r := [x] + s;
    forall i, j | 0 <= i < j < |r| ensures !less(r[j], r[i]) {
      if i == 0 {
        assert r[j] == s[j - 1];
        if j > 1 {
          assert !less(s[j - 1], s[0]);
        }
      } else {
        assert r[i] == s[i - 1] && r[j] == s[j - 1];
      }
    }
  }

  /** Putting `y` ahead of a sorted remainder whose elements all came after `y` or are not less than it. */
  lemma ConsSorted<T>(y: T, rest: seq<T>, s: seq<T>, x: T, less: (T, T) -> bool)
    requires SortedBy(rest, less) && SortedBy([y] + s, less)
    requires !less(x, y)
    requires forall z :: z in rest ==> z == x || z in s
    ensures SortedBy([y] + rest, less)
  {
    var r := [y] + rest;
    forall i, j | 0 <= i < j < |r| ensures !less(r[j], r[i]) {
      if i == 0 {
        var z := rest[j - 1];
        assert r[j] == z && r[0] == y && z in rest;
        if z != x {
          var k :| 0 <= k < |s| && s[k] == z;
          var ys := [y] + s;
          assert ys[k + 1] == z && ys[0] == y;
          assert !less(ys[k + 1], ys[0]);
        }
      } else {
        assert r[i] == rest[i - 1] && r[j] == rest[j - 1];
        assert !less(rest[j - 1], rest[i - 1]);
      }
    }
  }

  lemma {:induction false} InsertBySorted<T(!new)>(s: seq<T>, x: T, less: (T, T) -> bool)
    requires StrictOrder(less) && SortedBy(s, less)
    ensures SortedBy(InsertBy(s, x, less), less)
  {
    if s == [] {
    } else if !less(x, s[0]) {
      assert s == [s[0]] + s[1..];
      assert SortedBy(s[1..], less) by {
        forall i, j | 0 <= i < j < |s[1..]| ensures !less(s[1..][j], s[1..][i]) {
          assert s[1..][i] == s[i + 1] && s[1..][j] == s[j + 1];
        }
      }
      InsertBySorted(s[1..], x, less);
      var rest := InsertBy(s[1..], x, less);
      assert forall z :: z in rest ==> z in multiset(rest);
      ConsSorted(s[0], rest, s[1..], x, less);
    } else {
      InsertAtFrontSorted(s, x, less);
    }
  }

  /** Python's stable `sort`: an insertion sort that keeps the input order among equal elements. */
  function SortBy<T>(s: seq<T>, less: (T, T) -> bool): (r: seq<T>)
    ensures multiset(r) == multiset(s)
  {
    if s == [] then []
    else
      var init := s[..|s| - 1];
      assert s == init + [s[|s| - 1]];
      InsertBy(SortBy(init, less), s[|s| - 1], less)
  }

  lemma {:induction false} SortBySorts<T(!new)>(s: seq<T>, less: (T, T) -> bool)
    requires StrictOrder(less)
    ensures SortedBy(SortBy(s, less), less)
  {
    if s != [] {
      SortBySorts(s[..|s| - 1], less);
      InsertBySorted(SortBy(s[..|s| - 1], less), s[|s| - 1], less);
    }
  }

  /** One path sorts before another when its key is less. */
  predicate PathLess(a: string, b: string)
  {
    KeyLess(NaturalKey(a), NaturalKey(b))
  }

  lemma PathLessIsStrictOrder()
    ensures StrictOrder(PathLess)
  {
    forall a, b | PathLess(a, b) ensures !PathLess(b, a) {
      KeyLessAsymmetric(NaturalKey(a), NaturalKey(b));
    }
    forall a, b, c | PathLess(a, b) && PathLess(b, c) ensures PathLess(a, c) {
      KeyLessTransitive(NaturalKey(a), NaturalKey(b), NaturalKey(c));
    }
  }

  /** The paths in the order the script loads them. */
  function SortByKey(paths: seq<string>): (r: seq<string>)
    ensures multiset(r) == multiset(paths)
  {
    SortBy(paths, PathLess)
  }

  /** The sorted paths are the input paths, and none has a smaller key than a path before it. */
  lemma SortByKeySorts(paths: seq<string>)
    ensures forall i, j :: 0 <= i < j < |SortByKey(paths)| ==>
      !KeyLess(NaturalKey(SortByKey(paths)[j]), NaturalKey(SortByKey(paths)[i]))
    ensures |SortByKey(paths)| == |paths|
    ensures forall x :: x in SortByKey(paths) <==> x in paths
  {
    var r := SortByKey(paths);
    assert |multiset(r)| == |multiset(paths)|;
    assert forall x :: x in r <==> x in multiset(paths);
    PathLessIsStrictOrder();
    SortBySorts(paths, PathLess);
  }
}
