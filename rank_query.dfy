/** The ranking query of the dashboard (dashboard_claude.py, get_top_bottom_sectors): the
    summary rows of one investor category sorted by net amount, largest first, and the first
    and last n of them. The source's sort promises no order among equal amounts; this model
    breaks such ties by sector name, in lexicographic order, which makes the ranking a total
    order and the answer independent of the order in which the summary lists its rows. */
module RankQuery {
  import opened Table

  function Min(a: int, b: int): int { if a <= b then a else b }
  function Max(a: int, b: int): int { if a >= b then a else b }

  /** The summary rows of one category, in summary order. */
  function OfType(s: seq<SummaryRow>, invType: string): (r: seq<SummaryRow>)
    ensures |r| <= |s|
  {
    if s == [] then [] else (if s[0].invType == invType then [s[0]] else []) + OfType(s[1..], invType)
  }

  /** The filter keeps exactly the rows of the category. */
  lemma {:induction false} OfTypeMembers(s: seq<SummaryRow>, invType: string)
    ensures forall e :: e in OfType(s, invType) <==> e in s && e.invType == invType
  {
    if s != [] {
      OfTypeMembers(s[1..], invType);
      assert s == [s[0]] + s[1..];
    }
  }

  /** The filter keeps every copy of a row of the category and no copy of any other row. */
  lemma {:induction false} OfTypeMultiset(s: seq<SummaryRow>, invType: string)
    ensures forall e :: multiset(OfType(s, invType))[e] == if e.invType == invType then multiset(s)[e] else 0
  {
    if s != [] {
      OfTypeMultiset(s[1..], invType);
      assert s == [s[0]] + s[1..];
    }
  }

  /** Lexicographic order on sector names: a proper prefix comes first, otherwise the first
      differing character decides. */
  predicate LexLess(a: string, b: string) {
    if a == [] then b != []
    else b != [] && (a[0] < b[0] || (a[0] == b[0] && LexLess(a[1..], b[1..])))
  }

  lemma {:induction false} LexLessIrreflexive(a: string)
    ensures !LexLess(a, a)
  {
    if a != [] {
      LexLessIrreflexive(a[1..]);
    }
  }

  lemma {:induction false} LexLessTransitive(a: string, b: string, c: string)
    requires LexLess(a, b) && LexLess(b, c)
    ensures LexLess(a, c)
  {
    if a != [] && a[0] == b[0] && b[0] == c[0] {
      LexLessTransitive(a[1..], b[1..], c[1..]);
    }
  }

  lemma {:induction false} LexLessAsymmetric(a: string, b: string)
    requires LexLess(a, b)
    ensures !LexLess(b, a)
  {
    if a != [] && a[0] == b[0] {
      LexLessAsymmetric(a[1..], b[1..]);
    }
  }

  lemma {:induction false} LexLessTotal(a: string, b: string)
    requires a != b
    ensures LexLess(a, b) || LexLess(b, a)
  {
    if a != [] && b != [] && a[0] == b[0] {
      assert a == [a[0]] + a[1..] && b == [b[0]] + b[1..];
      LexLessTotal(a[1..], b[1..]);
    }
  }

  /** x ranks no later than y: a larger net amount comes first, equal amounts go by sector name. */
  predicate RanksNoLater(x: SummaryRow, y: SummaryRow) {
    x.net > y.net || (x.net == y.net && (x.sector == y.sector || LexLess(x.sector, y.sector)))
  }

  lemma RanksNoLaterTotal(x: SummaryRow, y: SummaryRow)
    ensures RanksNoLater(x, y) || RanksNoLater(y, x)
  {
    if x.net == y.net && x.sector != y.sector {
      LexLessTotal(x.sector, y.sector);
    }
  }

  lemma RanksNoLaterTransitive(x: SummaryRow, y: SummaryRow, z: SummaryRow)
    requires RanksNoLater(x, y) && RanksNoLater(y, z)
    ensures RanksNoLater(x, z)
  {
    if x.net == y.net == z.net && LexLess(x.sector, y.sector) && LexLess(y.sector, z.sector) {
      LexLessTransitive(x.sector, y.sector, z.sector);
    }
  }

  /** Within one category the ranking is antisymmetric: two rows that rank no later than each
      other are the same row. */
  lemma RanksNoLaterAntisymmetric(x: SummaryRow, y: SummaryRow)
    requires RanksNoLater(x, y) && RanksNoLater(y, x) && x.invType == y.invType
    ensures x == y
  {
    if x.sector != y.sector {
      LexLessAsymmetric(x.sector, y.sector);
    }
  }

  /** Ordered for the ranking, best first. */
  predicate Ranked(s: seq<SummaryRow>) {
    forall i, j :: 0 <= i < j < |s| ==> RanksNoLater(s[i], s[j])
  }

  /** Insertion of one row into a ranked list. */
  function Insert(x: SummaryRow, s: seq<SummaryRow>): (r: seq<SummaryRow>)
    requires Ranked(s)
    ensures Ranked(r)
    ensures multiset(r) == multiset(s) + multiset{x}
  {
    if s == [] then [x]
    else if RanksNoLater(x, s[0]) then
      InsertInFront(x, s);
      [x] + s
    else
      var rest := Insert(x, s[1..]);
      InsertBehind(x, s, rest);
      [s[0]] + rest
  }

  /** A row that ranks no later than the first row of a ranked list goes in front of it. */
  lemma InsertInFront(x: SummaryRow, s: seq<SummaryRow>)
    requires s != [] && Ranked(s) && RanksNoLater(x, s[0])
    ensures Ranked([x] + s)
  {
    FirstRanksNoLaterThanTail(s);
    assert s == [s[0]] + s[1..];
    forall e | e in s ensures RanksNoLater(x, e) {
      if e != s[0] {
        RanksNoLaterTransitive(x, s[0], e);
      }
    }
    RankedPrepend(x, s);
  }

  /** A row that ranks later than the first row of a ranked list goes into its tail. */
  lemma InsertBehind(x: SummaryRow, s: seq<SummaryRow>, rest: seq<SummaryRow>)
    requires s != [] && Ranked(s) && !RanksNoLater(x, s[0])
    requires Ranked(rest) && multiset(rest) == multiset(s[1..]) + multiset{x}
    ensures Ranked([s[0]] + rest)
    ensures multiset([s[0]] + rest) == multiset(s) + multiset{x}
  {
    assert s == [s[0]] + s[1..];
    RanksNoLaterTotal(x, s[0]);
    FirstRanksNoLaterThanTail(s);
    forall e | e in rest ensures RanksNoLater(s[0], e) {
      assert e in multiset(rest);
    }
    RankedPrepend(s[0], rest);
  }

  /** The first row of a ranked list ranks no later than any row after it. */
  lemma FirstRanksNoLaterThanTail(s: seq<SummaryRow>)
    requires s != [] && Ranked(s)
    ensures forall e :: e in s[1..] ==> RanksNoLater(s[0], e)
  {
    forall e | e in s[1..] ensures RanksNoLater(s[0], e) {
      var k :| 0 <= k < |s[1..]| && s[1..][k] == e;
      assert s[k + 1] == e;
    }
  }

  /** A row that ranks no later than every row of a ranked list can go in front of it. */
  lemma RankedPrepend(y: SummaryRow, rest: seq<SummaryRow>)
    requires Ranked(rest)
    requires forall e :: e in rest ==> RanksNoLater(y, e)
    ensures Ranked([y] + rest)
  {
    var r := [y] + rest;
    forall i, j | 0 <= i < j < |r| ensures RanksNoLater(r[i], r[j]) {
      if i == 0 {
        assert r[j] in rest;
      } else {
        assert r[i] == rest[i - 1] && r[j] == rest[j - 1];
      }
    }
  }

  /** The summary rows ordered for the ranking: a permutation of its input, best first. */
  function SortByNet(s: seq<SummaryRow>): (r: seq<SummaryRow>)
    ensures Ranked(r)
    ensures multiset(r) == multiset(s)
    ensures |r| == |s|
  {
    if s == [] then []
    else
      assert s == [s[0]] + s[1..];
      var r := Insert(s[0], SortByNet(s[1..]));
      assert |r| == |multiset(r)|;
      r
  }

  /** The first n rows, with the table library's rule that a negative n drops the last -n. */
  function Head<T>(s: seq<T>, n: int): (r: seq<T>)
    ensures |r| == Returned(|s|, n) && r == s[..|r|]
  {
    if n >= 0 then s[..Min(n, |s|)] else s[..Max(|s| + n, 0)]
  }

  /** The last n rows, with the table library's rule that a negative n drops the first -n. */
  function Tail<T>(s: seq<T>, n: int): (r: seq<T>)
    ensures |r| == Returned(|s|, n) && r == s[|s| - |r|..]
  {
    if n >= 0 then s[|s| - Min(n, |s|)..] else s[Min(-n, |s|)..]
  }

  /** The count of rows the query returns in each list, for a category with k rows. */
  function Returned(k: nat, n: int): nat {
    if n >= 0 then Min(n, k) else Max(k + n, 0)
  }

  /** The query: the best n and the worst n rows of one category. Both lists are ranked and
      hold only rows of the category, each of the length Returned gives; no row of the
      category left out of the top ranks before a top row, no row left out of the bottom ranks
      after a bottom row, and when the category has no more than n rows both lists are the
      whole category. */
  function TopBottom(summary: seq<SummaryRow>, invType: string, n: int): (r: (seq<SummaryRow>, seq<SummaryRow>))
    ensures |r.0| == |r.1| == Returned(|OfType(summary, invType)|, n)
    ensures forall e :: e in r.0 ==> e in summary && e.invType == invType
    ensures forall e :: e in r.1 ==> e in summary && e.invType == invType
    ensures Ranked(r.0) && Ranked(r.1)
    ensures multiset(r.0) <= multiset(OfType(summary, invType))
    ensures multiset(r.1) <= multiset(OfType(summary, invType))
    ensures forall i, e :: 0 <= i < |r.0| && e in OfType(summary, invType) && e !in r.0 ==> RanksNoLater(r.0[i], e)
    ensures forall i, e :: 0 <= i < |r.1| && e in OfType(summary, invType) && e !in r.1 ==> RanksNoLater(e, r.1[i])
    ensures |OfType(summary, invType)| <= n ==> r.0 == r.1 && multiset(r.0) == multiset(OfType(summary, invType))
  {
    var filtered := OfType(summary, invType);
    var ranked := SortByNet(filtered);
    TopFacts(filtered, n);
    BottomFacts(filtered, n);
    FromCategory(summary, invType, Head(ranked, n));
    FromCategory(summary, invType, Tail(ranked, n));
    WholeList(ranked, n);
    (Head(ranked, n), Tail(ranked, n))
  }

  /** Rows taken from the category's rows are rows of the summary in that category. */
  lemma FromCategory(summary: seq<SummaryRow>, invType: string, xs: seq<SummaryRow>)
    requires forall e :: e in xs ==> e in OfType(summary, invType)
    ensures forall e :: e in xs ==> e in summary && e.invType == invType
  {
    OfTypeMembers(summary, invType);
  }

  /** A list of no more than n rows is its own head and its own tail. */
  lemma WholeList<T>(s: seq<T>, n: int)
    ensures |s| <= n ==> Head(s, n) == s == Tail(s, n)
  {
    if |s| <= n {
      assert s[..|s|] == s == s[0..];
    }
  }

  /** The head of the ranked category: its length, its rows, its order, and that no row left
      out ranks before it. */
  lemma TopFacts(filtered: seq<SummaryRow>, n: int)
    ensures var top := Head(SortByNet(filtered), n);
      && |top| == Returned(|filtered|, n)
      && (forall e :: e in top ==> e in filtered)
      && Ranked(top)
      && multiset(top) <= multiset(filtered)
      && (forall i, e :: 0 <= i < |top| && e in filtered && e !in top ==> RanksNoLater(top[i], e))
  {
    var ranked := SortByNet(filtered);
    SameMembers(filtered, ranked);
    var m := Returned(|ranked|, n);
    assert Head(ranked, n) == ranked[..m];
    TopIsBest(ranked, m);
  }

  /** The tail of the ranked category: its length, its rows, its order, and that it ranks no
      earlier than any row left out. */
  lemma BottomFacts(filtered: seq<SummaryRow>, n: int)
    ensures var bottom := Tail(SortByNet(filtered), n);
      && |bottom| == Returned(|filtered|, n)
      && (forall e :: e in bottom ==> e in filtered)
      && Ranked(bottom)
      && multiset(bottom) <= multiset(filtered)
      && (forall i, e :: 0 <= i < |bottom| && e in filtered && e !in bottom ==> RanksNoLater(e, bottom[i]))
  {
    var ranked := SortByNet(filtered);
    SameMembers(filtered, ranked);
    var k := |ranked|;
    var m := Returned(k, n);
    assert Tail(ranked, n) == ranked[k - m..];
    BottomIsWorst(ranked, k - m);
  }

  lemma SameMembers(a: seq<SummaryRow>, b: seq<SummaryRow>)
    requires multiset(a) == multiset(b)
    ensures forall e :: e in a <==> e in b
  {
    forall e ensures e in a <==> e in b {
      assert e in a <==> e in multiset(a);
      assert e in b <==> e in multiset(b);
    }
  }

  /** The first m rows of a ranked list are ranked, come from the list, and rank no later than
      any row of the list left out of them. */
  lemma TopIsBest(ranked: seq<SummaryRow>, m: nat)
    requires Ranked(ranked) && m <= |ranked|
    ensures Ranked(ranked[..m])
    ensures multiset(ranked[..m]) <= multiset(ranked)
    ensures forall e :: e in ranked[..m] ==> e in ranked
    ensures forall i, e :: 0 <= i < m && e in ranked && e !in ranked[..m] ==> RanksNoLater(ranked[..m][i], e)
  {
    assert ranked == ranked[..m] + ranked[m..];
    forall i, e | 0 <= i < m && e in ranked && e !in ranked[..m] ensures RanksNoLater(ranked[..m][i], e) {
      var j :| 0 <= j < |ranked| && ranked[j] == e;
    }
  }

  /** The rows of a ranked list from position d are ranked, come from the list, and rank no
      earlier than any row of the list before them that is not among them. */
  lemma BottomIsWorst(ranked: seq<SummaryRow>, d: nat)
    requires Ranked(ranked) && d <= |ranked|
    ensures Ranked(ranked[d..])
    ensures multiset(ranked[d..]) <= multiset(ranked)
    ensures forall e :: e in ranked[d..] ==> e in ranked
    ensures forall i, e :: 0 <= i < |ranked| - d && e in ranked && e !in ranked[d..] ==> RanksNoLater(e, ranked[d..][i])
  {
    assert ranked == ranked[..d] + ranked[d..];
    forall i, e | 0 <= i < |ranked| - d && e in ranked && e !in ranked[d..] ensures RanksNoLater(e, ranked[d..][i]) {
      var j :| 0 <= j < |ranked| && ranked[j] == e;
      assert ranked[d..][i] == ranked[d + i];
    }
  }

  /** The head of a ranked list ranks no later than any of its rows. */
  lemma FirstIsBest(a: seq<SummaryRow>, x: SummaryRow)
    requires Ranked(a) && x in a
    ensures RanksNoLater(a[0], x)
  {
    var j :| 0 <= j < |a| && a[j] == x;
    if j == 0 {
      assert a[0].sector == x.sector;
    }
  }

  lemma RankedTail(a: seq<SummaryRow>)
    requires Ranked(a) && a != []
    ensures Ranked(a[1..])
  {
    forall i, j | 0 <= i < j < |a[1..]| ensures RanksNoLater(a[1..][i], a[1..][j]) {
      assert a[1..][i] == a[i + 1] && a[1..][j] == a[j + 1];
    }
  }

  lemma DropFirst(a: seq<SummaryRow>, b: seq<SummaryRow>)
    requires a != [] && b != [] && a[0] == b[0] && multiset(a) == multiset(b)
    ensures multiset(a[1..]) == multiset(b[1..])
  {
    assert a == [a[0]] + a[1..] && b == [b[0]] + b[1..];
    assert multiset(a[1..]) == multiset(a) - multiset{a[0]};
    assert multiset(b[1..]) == multiset(b) - multiset{b[0]};
  }

  /** Two ranked lists of one category with the same rows are the same list. */
  lemma {:induction false} RankedUnique(a: seq<SummaryRow>, b: seq<SummaryRow>, invType: string)
    requires Ranked(a) && Ranked(b) && multiset(a) == multiset(b)
    requires forall e :: e in a ==> e.invType == invType
    ensures a == b
  {
    assert |a| == |multiset(a)| == |b|;
    if a != [] {
      assert a[0] in multiset(b) && b[0] in multiset(a);
      FirstIsBest(b, a[0]);
      FirstIsBest(a, b[0]);
      assert a[0] in a && b[0] in a;
      RanksNoLaterAntisymmetric(a[0], b[0]);
      DropFirst(a, b);
      RankedTail(a);
      RankedTail(b);
      assert forall e :: e in a[1..] ==> e in a;
      RankedUnique(a[1..], b[1..], invType);
      assert a == [a[0]] + a[1..] && b == [b[0]] + b[1..];
    }
  }

  /** The answer of the query depends on the rows of the summary, not on their order. */
  lemma RankingIgnoresSummaryOrder(s1: seq<SummaryRow>, s2: seq<SummaryRow>, invType: string, n: int)
    requires multiset(s1) == multiset(s2)
    ensures TopBottom(s1, invType, n) == TopBottom(s2, invType, n)
  {
    var f1, f2 := OfType(s1, invType), OfType(s2, invType);
    OfTypeMultiset(s1, invType);
    OfTypeMultiset(s2, invType);
    assert multiset(f1) == multiset(f2);
    var r1, r2 := SortByNet(f1), SortByNet(f2);
    OfTypeMembers(s1, invType);
    SameMembers(f1, r1);
    RankedUnique(r1, r2, invType);
  }
}
