/** How the five views of one table relate to each other and to the ranking query: the sector
    rows of a category add up to its total, every column of a dense pivot adds up over the
    dates to the matching total, untraded cells are 0, the empty table has empty views, and
    the summary, and with it every ranking, is determined by the table. */
module Consistency {
  import opened Table
  import Normalizer
  import opened Aggregator
  import opened RankQuery

  /** The sum of the net column of summary rows. */
  function NetTotal(s: seq<SummaryRow>): real {
    if s == [] then 0.0 else s[0].net + NetTotal(s[1..])
  }

  function Sectors(s: seq<SummaryRow>): (r: seq<string>)
    ensures |r| == |s| && forall i :: 0 <= i < |s| ==> r[i] == s[i].sector
  {
    seq(|s|, i requires 0 <= i < |s| => s[i].sector)
  }

  /** The sum of a dense pivot's column k over the dates ds. */
  function ColumnSum<K(==)>(p: map<(Date, K), real>, ds: seq<Date>, k: K): real
    requires forall i :: 0 <= i < |ds| ==> (ds[i], k) in p
  {
    if ds == [] then 0.0 else p[(ds[0], k)] + ColumnSum(p, ds[1..], k)
  }

  lemma {:induction false} NetTotalIsSumGroups(f: seq<SummaryRow>, rows: seq<Row>)
    requires forall e :: e in f ==> e.net == Scale(SumOf(Where(rows, SectorKey, e.sector), Net))
    ensures NetTotal(f) == Scale(SumGroups(rows, SectorKey, Sectors(f), Net))
  {
    if f != [] {
      assert Sectors(f)[1..] == Sectors(f[1..]);
      assert f[0] in f;
      assert forall e :: e in f[1..] ==> e in f;
      NetTotalIsSumGroups(f[1..], rows);
    }
  }

  /** No later row of the first row's category has the first row's sector. */
  lemma FirstSectorNotLater(s: seq<SummaryRow>, c: string)
    requires s != [] && DistinctPairs(s) && s[0].invType == c
    ensures s[0].sector !in Sectors(OfType(s[1..], c))
  {
    var rest := OfType(s[1..], c);
    OfTypeMembers(s[1..], c);
    forall m | 0 <= m < |rest| ensures Sectors(rest)[m] != s[0].sector {
      assert rest[m] in rest;
      var j :| 0 <= j < |s[1..]| && s[1..][j] == rest[m];
      assert s[j + 1] == rest[m];
    }
  }

  lemma DistinctCons<K>(x: K, ys: seq<K>)
    requires x !in ys && Distinct(ys)
    ensures Distinct([x] + ys)
  {
    var zs := [x] + ys;
    forall i, j | 0 <= i < j < |zs| ensures zs[i] != zs[j] {
      assert zs[j] == ys[j - 1];
      if i > 0 {
        assert zs[i] == ys[i - 1];
      }
    }
  }

  /** Within one category, the sectors of a summary with distinct pairs are distinct. */
  lemma {:induction false} OfTypeDistinctSectors(s: seq<SummaryRow>, c: string)
    requires DistinctPairs(s)
    ensures Distinct(Sectors(OfType(s, c)))
  {
    if s != [] {
      DistinctPairsTail(s);
      OfTypeDistinctSectors(s[1..], c);
      if s[0].invType == c {
        var rest := OfType(s[1..], c);
        assert OfType(s, c) == [s[0]] + rest;
        FirstSectorNotLater(s, c);
        DistinctCons(s[0].sector, Sectors(rest));
        assert Sectors([s[0]] + rest) == [s[0].sector] + Sectors(rest);
      } else {
        assert OfType(s, c) == OfType(s[1..], c);
      }
    }
  }

  /** Every row of a category has its sector among the category's summary rows. */
  lemma SectorsCover(rows: seq<Row>, s: seq<SummaryRow>, c: string)
    requires IsSectorSummary(rows, s)
    ensures forall r :: r in Where(rows, CategoryKey, c) ==> SectorKey(r) in Sectors(OfType(s, c))
  {
    var f := OfType(s, c);
    OfTypeMembers(s, c);
    WhereMembers(rows, CategoryKey, c);
    forall r | r in Where(rows, CategoryKey, c) ensures SectorKey(r) in Sectors(f) {
      assert PairKey(r) in Keys(rows, PairKey);
      var e :| e in s && PairOf(e) == PairKey(r);
      assert e in f;
      var i :| 0 <= i < |f| && f[i] == e;
      assert Sectors(f)[i] == SectorKey(r);
    }
  }

  /** Sum consistency of the summary: for every category, the net amounts of its sector rows
      add up to its net total (and to 0 for a category that has no rows). */
  lemma SectorRowsAddUpToTotal(rows: seq<Row>, s: seq<SummaryRow>, t: map<string, real>, c: string)
    requires IsSectorSummary(rows, s) && IsTotalByType(rows, t, Net)
    ensures NetTotal(OfType(s, c)) == if c in t then t[c] else 0.0
  {
    var f := OfType(s, c);
    var rowsC := Where(rows, CategoryKey, c);
    assert forall e :: e in f ==> e.net == Scale(SumOf(Where(rowsC, SectorKey, e.sector), Net)) by {
      OfTypeMembers(s, c);
    }
    NetTotalIsSumGroups(f, rowsC);
    OfTypeDistinctSectors(s, c);
    SectorsCover(rows, s, c);
    Partition(rowsC, SectorKey, Sectors(f), Net);
    if c !in t {
      WhereUnobserved(rows, CategoryKey, c);
    }
  }

  lemma {:induction false} ColumnSumIsSumGroups<K(!new)>(rows: seq<Row>, col: Row -> K, p: map<(Date, K), real>, ds: seq<Date>, k: K)
    requires IsDensePivot(rows, col, p)
    requires forall i :: 0 <= i < |ds| ==> (ds[i], k) in p
    ensures ColumnSum(p, ds, k) == Scale(SumGroups(Where(rows, col, k), DateKey, ds, Net))
  {
    if ds != [] {
      assert ds[0] in ds;
      WhereCommutes(rows, DateKey, ds[0], col, k);
      assert forall d :: d in ds[1..] ==> d in ds;
      ColumnSumIsSumGroups(rows, col, p, ds[1..], k);
    }
  }

  /** A column of a dense pivot, summed over all observed dates (each listed once), is the net
      amount of the column's rows in millions. */
  lemma ColumnSumIsTotal<K(!new)>(rows: seq<Row>, col: Row -> K, p: map<(Date, K), real>, ds: seq<Date>, k: K)
    requires IsDensePivot(rows, col, p)
    requires Distinct(ds) && forall d :: d in ds <==> d in Dates(rows)
    requires k in Keys(rows, col)
    ensures forall i :: 0 <= i < |ds| ==> (ds[i], k) in p
    ensures ColumnSum(p, ds, k) == Scale(SumOf(Where(rows, col, k), Net))
  {
    forall i | 0 <= i < |ds| ensures (ds[i], k) in p {
      assert ds[i] in ds;
    }
    ColumnSumIsSumGroups(rows, col, p, ds, k);
    WhereMembers(rows, col, k);
    forall r | r in Where(rows, col, k) ensures DateKey(r) in ds {
      assert DateKey(r) in Dates(rows);
    }
    Partition(Where(rows, col, k), DateKey, ds, Net);
  }

  /** The daily evolution of a category, summed over all observed dates, is its net total. */
  lemma DailyColumnsAddUpToTotal(rows: seq<Row>, p: map<(Date, string), real>, t: map<string, real>, ds: seq<Date>, c: string)
    requires IsDensePivot(rows, CategoryKey, p) && IsTotalByType(rows, t, Net)
    requires Distinct(ds) && forall d :: d in ds <==> d in Dates(rows)
    requires c in t
    ensures forall i :: 0 <= i < |ds| ==> (ds[i], c) in p
    ensures ColumnSum(p, ds, c) == t[c]
  {
    ColumnSumIsTotal(rows, CategoryKey, p, ds, c);
  }

  /** The sector evolution of a (category, sector) pair, summed over all observed dates, is the
      pair's row of the sector summary. */
  lemma SectorColumnsAddUpToSummary(rows: seq<Row>, p: map<(Date, (string, string)), real>, s: seq<SummaryRow>, ds: seq<Date>, e: SummaryRow)
    requires IsDensePivot(rows, PairKey, p) && IsSectorSummary(rows, s)
    requires Distinct(ds) && forall d :: d in ds <==> d in Dates(rows)
    requires e in s
    ensures forall i :: 0 <= i < |ds| ==> (ds[i], PairOf(e)) in p
    ensures ColumnSum(p, ds, PairOf(e)) == e.net
  {
    assert PairOf(e) in Pairs(s);
    ColumnSumIsTotal(rows, PairKey, p, ds, PairOf(e));
    WherePair(rows, PairKey, CategoryKey, SectorKey, e.invType, e.sector);
  }

  /** Dense fill: a cell of a date and column with no trade holds 0. */
  lemma UntradedCellIsZero<K(!new)>(rows: seq<Row>, col: Row -> K, p: map<(Date, K), real>, key: (Date, K))
    requires IsDensePivot(rows, col, p) && key in p
    requires forall r :: r in rows ==> !(r.date == key.0 && col(r) == key.1)
    ensures p[key] == 0.0
  {
    var onDate := Where(rows, DateKey, key.0);
    WhereMembers(rows, DateKey, key.0);
    assert key.1 !in Keys(onDate, col);
    WhereUnobserved(onDate, col, key.1);
  }

  /** The two per-category totals have the same keys; on a cleaned table these are some of the
      three categories. */
  lemma TotalsShareCategories(rows: seq<Row>, t: map<string, real>, v: map<string, real>)
    requires Normalizer.Canonical(rows)
    requires IsTotalByType(rows, t, Net) && IsTotalByType(rows, v, Total)
    ensures t.Keys == v.Keys
    ensures t.Keys <= Normalizer.ValidInvestors
    ensures |t| <= 3
  {
    forall c | c in t.Keys ensures c in Normalizer.ValidInvestors {
      var r :| r in rows && CategoryKey(r) == c;
      assert Normalizer.CanonicalRow(r);
    }
    assert |Normalizer.ValidInvestors| == 3;
    SubsetCard(t.Keys, Normalizer.ValidInvestors);
  }

  lemma {:induction false} SubsetCard<T>(a: set<T>, b: set<T>)
    requires a <= b
    ensures |a| <= |b|
  {
    if a != {} {
      var x :| x in a;
      SubsetCard(a - {x}, b - {x});
    }
  }

  lemma NonEmptyHasPair(s: seq<SummaryRow>)
    requires s != []
    ensures PairOf(s[0]) in Pairs(s)
  {
    assert s[0] in s;
  }

  /** The empty table has five empty views. */
  lemma EmptyTableEmptyViews(w: Views)
    requires IsViews([], w)
    ensures w == Views([], map[], map[], map[], map[])
  {
    if w.summary != [] {
      NonEmptyHasPair(w.summary);
      assert false;
    }
    assert w.daily.Keys == {} by {
      forall key | key in w.daily ensures false {
        assert false;
      }
    }
    assert w.bySector.Keys == {} by {
      forall key | key in w.bySector ensures false {
        assert false;
      }
    }
  }

  /** A sheet without an accepted account has five empty views. */
  lemma NothingAcceptedNoViews(raw: seq<RawRow>, w: Views)
    requires forall x :: x in raw ==> !Normalizer.Accepted(x.conta)
    requires IsViews(Normalizer.Normalize(raw), w)
    ensures w == Views([], map[], map[], map[], map[])
  {
    Normalizer.NothingAcceptedIsEmpty(raw);
    EmptyTableEmptyViews(w);
  }

  /** A list without repeated rows holds each of its rows once. */
  lemma {:induction false} DistinctMultiset(s: seq<SummaryRow>)
    requires Distinct(s)
    ensures forall e :: multiset(s)[e] == if e in s then 1 else 0
  {
    if s != [] {
      var tail := s[1..];
      DistinctTail(s);
      DistinctMultiset(tail);
      assert s == [s[0]] + tail;
    }
  }

  /** Two sector summaries of one table hold the same rows; only their order may differ. */
  lemma SummaryDeterminedByTable(rows: seq<Row>, s1: seq<SummaryRow>, s2: seq<SummaryRow>)
    requires IsSectorSummary(rows, s1) && IsSectorSummary(rows, s2)
    ensures multiset(s1) == multiset(s2)
  {
    forall e | e in s1 ensures e in s2 {
      assert PairOf(e) in Pairs(s2);
      var e2 :| e2 in s2 && PairOf(e2) == PairOf(e);
    }
    forall e | e in s2 ensures e in s1 {
      assert PairOf(e) in Pairs(s1);
      var e1 :| e1 in s1 && PairOf(e1) == PairOf(e);
    }
    DistinctMultiset(s1);
    DistinctMultiset(s2);
  }

  /** The views of a table are determined by the table: the four mappings are equal, and the
      two summaries hold the same rows. */
  lemma ViewsDeterminedByTable(rows: seq<Row>, w1: Views, w2: Views)
    requires IsViews(rows, w1) && IsViews(rows, w2)
    ensures multiset(w1.summary) == multiset(w2.summary)
    ensures w1.netByType == w2.netByType && w1.volumeByType == w2.volumeByType
    ensures w1.daily == w2.daily && w1.bySector == w2.bySector
  {
    SummaryDeterminedByTable(rows, w1.summary, w2.summary);
    TotalDeterminedByTable(rows, w1.netByType, w2.netByType, Net);
    TotalDeterminedByTable(rows, w1.volumeByType, w2.volumeByType, Total);
    PivotDeterminedByTable(rows, CategoryKey, w1.daily, w2.daily);
    PivotDeterminedByTable(rows, PairKey, w1.bySector, w2.bySector);
  }

  lemma TotalDeterminedByTable(rows: seq<Row>, t1: map<string, real>, t2: map<string, real>, val: Row -> int)
    requires IsTotalByType(rows, t1, val) && IsTotalByType(rows, t2, val)
    ensures t1 == t2
  {
  }

  lemma PivotDeterminedByTable<K(!new)>(rows: seq<Row>, col: Row -> K, p1: map<(Date, K), real>, p2: map<(Date, K), real>)
    requires IsDensePivot(rows, col, p1) && IsDensePivot(rows, col, p2)
    ensures p1 == p2
  {
    assert p1.Keys == p2.Keys;
  }

  /** A sheet row whose account is not accepted contributes to no view: the views with and
      without it agree, wherever it stands in the sheet. */
  lemma UnacceptedRowChangesNoView(a: seq<RawRow>, x: RawRow, b: seq<RawRow>, w1: Views, w2: Views)
    requires !Normalizer.Accepted(x.conta)
    requires IsViews(Normalizer.Normalize(a + [x] + b), w1)
    requires IsViews(Normalizer.Normalize(a + b), w2)
    ensures multiset(w1.summary) == multiset(w2.summary)
    ensures w1.netByType == w2.netByType && w1.volumeByType == w2.volumeByType
    ensures w1.daily == w2.daily && w1.bySector == w2.bySector
  {
    Normalizer.DropsUnaccepted(a, x, b);
    ViewsDeterminedByTable(Normalizer.Normalize(a + b), w1, w2);
  }

  /** Every ranking query answers the same on any sector summary of the same table: the
      summary's row order does not matter. */
  lemma RankingDeterminedByTable(rows: seq<Row>, s1: seq<SummaryRow>, s2: seq<SummaryRow>, c: string, n: int)
    requires IsSectorSummary(rows, s1) && IsSectorSummary(rows, s2)
    ensures TopBottom(s1, c, n) == TopBottom(s2, c, n)
  {
    SummaryDeterminedByTable(rows, s1, s2);
    RankingIgnoresSummaryOrder(s1, s2, c, n);
  }
}
