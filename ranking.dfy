/**
 * Rule totals and their descending order, shared by the rule statistics of
 * `optimizer.rs` (a `sort_by` on the total, descending) and the top-five
 * selection of `rule_mostpop.py` (`sort_values(ascending=False)`).
 */
module Ranking {
  /** A rule name with its total number of applications. */
  datatype RuleTotal = RuleTotal(rule: string, total: nat)

  predicate NonIncreasing(s: seq<RuleTotal>)
  {
    forall i, j :: 0 <= i < j < |s| ==> s[i].total >= s[j].total
  }

  predicate DistinctRules(s: seq<RuleTotal>)
  {
    forall i, j :: 0 <= i < j < |s| ==> s[i].rule != s[j].rule
  }

  /** The rules of a sequence of totals. */
  function RulesOf(s: seq<RuleTotal>): set<string>
  {
    set k | 0 <= k < |s| :: s[k].rule
  }

  lemma RulesOfSnoc(s: seq<RuleTotal>, e: RuleTotal)
    ensures RulesOf(s + [e]) == RulesOf(s) + {e.rule}
  {
    assert forall k :: 0 <= k < |s| ==> (s + [e])[k] == s[k];
    assert (s + [e])[|s|] == e;
  }

  /** Two sequences with the same entries have the same rules. */
  lemma RulesOfSameEntries(a: seq<RuleTotal>, b: seq<RuleTotal>)
    requires forall x :: x in a <==> x in b
    ensures RulesOf(a) == RulesOf(b)
  {
    forall r | r in RulesOf(a) ensures r in RulesOf(b) {
      var k :| 0 <= k < |a| && a[k].rule == r;
      assert a[k] in b;
      var j :| 0 <= j < |b| && b[j] == a[k];
    }
    forall r | r in RulesOf(b) ensures r in RulesOf(a) {
      var k :| 0 <= k < |b| && b[k].rule == r;
      assert b[k] in a;
      var j :| 0 <= j < |a| && a[j] == b[k];
    }
  }

  /** Inserts `e` after every entry whose total is at least `e`'s, so equal totals keep their arrival order. */
  function Insert(s: seq<RuleTotal>, e: RuleTotal): (r: seq<RuleTotal>)
    ensures multiset(r) == multiset(s) + multiset{e}
  {
    if s == [] then [e]
    else if s[0].total >= e.total then
      assert s == [s[0]] + s[1..];
      [s[0]] + Insert(s[1..], e)
    else
      [e] + s
  }

  /** Insertion keeps a non-increasing sequence non-increasing. */
  lemma {:induction false} InsertKeepsOrder(s: seq<RuleTotal>, e: RuleTotal)
    requires NonIncreasing(s)
    ensures NonIncreasing(Insert(s, e))
  {
    if s != [] && s[0].total >= e.total {
      InsertKeepsOrder(s[1..], e);
      var rest := Insert(s[1..], e);
      var r := [s[0]] + rest;
      forall i, j | 0 <= i < j < |r| ensures r[i].total >= r[j].total {
        if i == 0 {
          assert r[j] == rest[j - 1] && rest[j - 1] in multiset(s[1..]) + multiset{e};
          if r[j] != e {
            var k :| 0 <= k < |s[1..]| && s[1..][k] == r[j];
            assert s[k + 1] == r[j];
          }
        } else {
          assert r[i] == rest[i - 1] && r[j] == rest[j - 1];
        }
      }
    }
  }

  /** Insertion of an entry whose rule is new keeps the rules distinct. */
  lemma {:induction false} InsertKeepsDistinct(s: seq<RuleTotal>, e: RuleTotal)
    requires DistinctRules(s) && forall x :: x in s ==> x.rule != e.rule
    ensures DistinctRules(Insert(s, e))
  {
    if s != [] && s[0].total >= e.total {
      InsertKeepsDistinct(s[1..], e);
      var rest := Insert(s[1..], e);
      var r := [s[0]] + rest;
      forall i, j | 0 <= i < j < |r| ensures r[i].rule != r[j].rule {
        if i == 0 {
          assert r[j] == rest[j - 1] && rest[j - 1] in multiset(s[1..]) + multiset{e};
          if r[j] != e {
            var k :| 0 <= k < |s[1..]| && s[1..][k] == r[j];
            assert s[k + 1] == r[j];
          }
        } else {
          assert r[i] == rest[i - 1] && r[j] == rest[j - 1];
        }
      }
    }
  }

  /** A stable sort by total, descending: a permutation of its input. */
  function SortDesc(s: seq<RuleTotal>): (r: seq<RuleTotal>)
    ensures multiset(r) == multiset(s)
  {
    if s == [] then []
    else
      var init := s[..|s| - 1];
      assert s == init + [s[|s| - 1]];
      Insert(SortDesc(init), s[|s| - 1])
  }

  /** The sort's result is non-increasing; it keeps the length, the entries and distinct rules. */
  lemma {:induction false} SortDescSorts(s: seq<RuleTotal>)
    ensures NonIncreasing(SortDesc(s)) && |SortDesc(s)| == |s|
    ensures forall x :: x in SortDesc(s) <==> x in s
    ensures DistinctRules(s) ==> DistinctRules(SortDesc(s))
  {
    var r := SortDesc(s);
    assert |multiset(r)| == |multiset(s)|;
    assert forall x :: x in r <==> x in multiset(s);
    if s != [] {
      var init := s[..|s| - 1];
      var last := s[|s| - 1];
      SortDescSorts(init);
      InsertKeepsOrder(SortDesc(init), last);
      if DistinctRules(s) {
        assert forall x :: x in init ==> x.rule != last.rule;
        InsertKeepsDistinct(SortDesc(init), last);
      }
    }
  }

  /** In a non-increasing sequence every entry of a prefix is at least every entry of the rest. */
  lemma PrefixDominatesRest(s: seq<RuleTotal>, m: nat)
    requires NonIncreasing(s) && m <= |s|
    ensures forall x, y :: x in s[..m] && y in s[m..] ==> x.total >= y.total
  {
    forall x, y | x in s[..m] && y in s[m..] ensures x.total >= y.total {
      var i :| 0 <= i < m && s[..m][i] == x;
      var j :| 0 <= j < |s| - m && s[m..][j] == y;
      assert s[i] == x && s[m + j] == y;
    }
  }
}
