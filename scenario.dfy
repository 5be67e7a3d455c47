/** Worked examples on concrete sheets: three trades cleaned and aggregated, a row of an
    unknown desk that changes nothing, and a ranking query with a tie. */
module Scenario {
  import opened Table
  import opened Normalizer
  import opened Aggregator
  import opened RankQuery
  import Consistency

  const D1: Date := 1
  const D2: Date := 2

  /** A retail trade in banks, a foreign trade in real-estate funds and a local institutional
      trade in banks; sub-sector and segment are absent. */
  function Sheet(): seq<RawRow> {
    [ RawRow(D1, Text("BANK"), Null, Null, Text("GENIAL"), 3500000, 1500000, 2000000, 5000000),
      RawRow(D1, Text("FII"), Null, Null, Text("ESTRANGEIRO"), 0, 1000000, -1000000, 1000000),
      RawRow(D2, Text("BANK"), Null, Null, Text("LOCAL INSTITUCIONAL"), 500000, 0, 500000, 500000) ]
  }

  function Cleaned(): seq<Row> {
    [ Row(D1, Text("BANK"), Text(Others), Text(Others), Text("RETAIL"), 3500000, 1500000, 2000000, 5000000),
      Row(D1, Text(Others), Text(Others), Text(Others), Text("FOREIGNERS"), 0, 1000000, -1000000, 1000000),
      Row(D2, Text("BANK"), Text(Others), Text(Others), Text("LOCALS"), 500000, 0, 500000, 500000) ]
  }

  /** One accepted sheet row cleans to the row with the filled cells, the mapped sector and
      its category. */
  lemma CleanedRow(x: RawRow, r: Row)
    requires Accepted(x.conta)
    requires r == Row(x.dtNegocio, Replace(FillCell(x.cdSetor), SectorMapping), FillCell(x.cdSubsetor),
                      FillCell(x.cdSegmento), Text(CategoryFor(x.conta.value)), x.vlCompra, x.vlVenda, x.vlNet, x.vlTotal)
    ensures Normalize([x]) == [r]
  {
    NormalizeOne(x);
  }

  lemma FirstRowCleaned()
    ensures Normalize([Sheet()[0]]) == [Cleaned()[0]]
  {
    assert "BANK" !in SectorMapping;
    CleanedRow(Sheet()[0], Cleaned()[0]);
  }

  lemma SecondRowCleaned()
    ensures Normalize([Sheet()[1]]) == [Cleaned()[1]]
  {
    assert Replace(Text("FII"), SectorMapping) == Text(Others);
    CleanedRow(Sheet()[1], Cleaned()[1]);
  }

  lemma ThirdRowCleaned()
    ensures Normalize([Sheet()[2]]) == [Cleaned()[2]]
  {
    assert "BANK" !in SectorMapping;
    CleanedRow(Sheet()[2], Cleaned()[2]);
  }

  lemma NormalizeThree(a: RawRow, b: RawRow, c: RawRow)
    ensures Normalize([a, b, c]) == Normalize([a]) + Normalize([b]) + Normalize([c])
  {
    var ab := [a] + [b];
    assert ab + [c] == [a, b, c];
    NormalizeAppend([a], [b]);
    NormalizeAppend(ab, [c]);
  }

  /** The three rows are kept, with their categories, the real-estate fund code folded into the
      sentinel and the absent cells filled. */
  lemma SheetCleaned()
    ensures Normalize(Sheet()) == Cleaned()
  {
    var s, c := Sheet(), Cleaned();
    assert s == [s[0], s[1], s[2]];
    assert c == [c[0]] + [c[1]] + [c[2]];
    FirstRowCleaned();
    SecondRowCleaned();
    ThirdRowCleaned();
    NormalizeThree(s[0], s[1], s[2]);
  }

  /** A row of an unknown desk added to the sheet is dropped. */
  lemma UnknownDeskDropped()
    ensures Normalize(Sheet() + [RawRow(D2, Text("BANK"), Null, Null, Text("UNKNOWN_DESK"), 9, 0, 9, 9)]) == Cleaned()
  {
    var x := RawRow(D2, Text("BANK"), Null, Null, Text("UNKNOWN_DESK"), 9, 0, 9, 9);
    DropsUnaccepted(Sheet(), x, []);
    assert Sheet() + [x] + [] == Sheet() + [x];
    assert Sheet() + [] == Sheet();
    SheetCleaned();
  }

  function Summary(): seq<SummaryRow> {
    [SummaryRow("RETAIL", "BANK", 2.0), SummaryRow("FOREIGNERS", Others, -1.0), SummaryRow("LOCALS", "BANK", 0.5)]
  }

  function Daily(): map<(Date, string), real> {
    map[(D1, "RETAIL") := 2.0, (D1, "FOREIGNERS") := -1.0, (D1, "LOCALS") := 0.0,
        (D2, "RETAIL") := 0.0, (D2, "FOREIGNERS") := 0.0, (D2, "LOCALS") := 0.5]
  }

  /** What the views depend on in the cleaned rows: their labels, dates and amounts. */
  predicate Shaped(c: seq<Row>) {
    && |c| == 3
    && CategoryKey(c[0]) == "RETAIL" && SectorKey(c[0]) == "BANK" && c[0].date == D1
    && CategoryKey(c[1]) == "FOREIGNERS" && SectorKey(c[1]) == Others && c[1].date == D1
    && CategoryKey(c[2]) == "LOCALS" && SectorKey(c[2]) == "BANK" && c[2].date == D2
    && c[0].net == 2000000 && c[1].net == -1000000 && c[2].net == 500000
    && c[0].total == 5000000 && c[1].total == 1000000 && c[2].total == 500000
  }

  lemma CleanedShaped()
    ensures Shaped(Cleaned())
  {
  }

  /** Selecting from three rows, one row at a time. */
  lemma WhereThree<K>(c: seq<Row>, key: Row -> K, k: K)
    requires |c| == 3
    ensures Where(c, key, k)
            == (if key(c[0]) == k then [c[0]] else [])
             + (if key(c[1]) == k then [c[1]] else [])
             + (if key(c[2]) == k then [c[2]] else [])
  {
    WhereTwo(c[0], c[1], key, k);
    WhereSnoc([c[0], c[1]], c[2], key, k);
    assert [c[0], c[1]] + [c[2]] == c;
  }

  lemma WhereTwo<K>(x: Row, y: Row, key: Row -> K, k: K)
    ensures Where([x, y], key, k) == (if key(x) == k then [x] else []) + (if key(y) == k then [y] else [])
  {
    WhereOne(x, key, k);
    WhereSnoc([x], y, key, k);
    assert [x] + [y] == [x, y];
  }

  lemma WhereOne<K>(x: Row, key: Row -> K, k: K)
    ensures Where([x], key, k) == if key(x) == k then [x] else []
  {
    WhereSnoc([], x, key, k);
    assert [] + [x] == [x];
  }

  lemma SumOne(x: Row, val: Row -> int)
    ensures SumOf([x], val) == val(x)
  {
    assert Init([x]) == [] && Last([x]) == x;
  }

  lemma ShapedKeys(c: seq<Row>)
    requires Shaped(c)
    ensures Keys(c, CategoryKey) == {"RETAIL", "FOREIGNERS", "LOCALS"}
    ensures Keys(c, PairKey) == {("RETAIL", "BANK"), ("FOREIGNERS", Others), ("LOCALS", "BANK")}
    ensures Dates(c) == {D1, D2}
  {
    assert forall r :: r in c <==> r == c[0] || r == c[1] || r == c[2];
  }

  lemma ShapedByCategory(c: seq<Row>)
    requires Shaped(c)
    ensures Where(c, CategoryKey, "RETAIL") == [c[0]]
    ensures Where(c, CategoryKey, "FOREIGNERS") == [c[1]]
    ensures Where(c, CategoryKey, "LOCALS") == [c[2]]
  {
    WhereThree(c, CategoryKey, "RETAIL");
    WhereThree(c, CategoryKey, "FOREIGNERS");
    WhereThree(c, CategoryKey, "LOCALS");
  }

  lemma PairsThree(a: SummaryRow, b: SummaryRow, c: SummaryRow)
    ensures Pairs([a, b, c]) == {PairOf(a), PairOf(b), PairOf(c)}
  {
    assert forall e :: e in [a, b, c] <==> e == a || e == b || e == c;
  }

  lemma SummaryPairs()
    ensures Pairs(Summary()) == {("RETAIL", "BANK"), ("FOREIGNERS", Others), ("LOCALS", "BANK")}
  {
    var s := Summary();
    PairsThree(s[0], s[1], s[2]);
    assert s == [s[0], s[1], s[2]];
  }

  lemma SectorCell(x: Row)
    ensures Where(Where([x], CategoryKey, CategoryKey(x)), SectorKey, SectorKey(x)) == [x]
    ensures SumOf([x], Net) == x.net
  {
    WhereOne(x, CategoryKey, CategoryKey(x));
    WhereOne(x, SectorKey, SectorKey(x));
    SumOne(x, Net);
  }

  lemma ShapedSummary(c: seq<Row>)
    requires Shaped(c)
    ensures IsSectorSummary(c, Summary())
  {
    var s := Summary();
    SummaryPairs();
    ShapedKeys(c);
    ShapedByCategory(c);
    SectorCell(c[0]);
    SectorCell(c[1]);
    SectorCell(c[2]);
    assert Scale(SumOf(Where(Where(c, CategoryKey, "RETAIL"), SectorKey, "BANK"), Net)) == 2.0;
    assert Scale(SumOf(Where(Where(c, CategoryKey, "FOREIGNERS"), SectorKey, Others), Net)) == -1.0;
    assert Scale(SumOf(Where(Where(c, CategoryKey, "LOCALS"), SectorKey, "BANK"), Net)) == 0.5;
    assert forall e :: e in s <==> e == s[0] || e == s[1] || e == s[2];
  }

  lemma ShapedTotals(c: seq<Row>)
    requires Shaped(c)
    ensures IsTotalByType(c, map["RETAIL" := 2.0, "FOREIGNERS" := -1.0, "LOCALS" := 0.5], Net)
    ensures IsTotalByType(c, map["RETAIL" := 5.0, "FOREIGNERS" := 1.0, "LOCALS" := 0.5], Total)
  {
    ShapedKeys(c);
    ShapedByCategory(c);
    SumOne(c[0], Net);
    SumOne(c[1], Net);
    SumOne(c[2], Net);
    SumOne(c[0], Total);
    SumOne(c[1], Total);
    SumOne(c[2], Total);
  }

  /** The net amount, in millions, of the rows of day d and category k. */
  function Cell(c: seq<Row>, d: Date, k: string): real {
    Scale(SumOf(Where(Where(c, DateKey, d), CategoryKey, k), Net))
  }

  lemma FirstDay(c: seq<Row>)
    requires Shaped(c)
    ensures Cell(c, D1, "RETAIL") == 2.0 && Cell(c, D1, "FOREIGNERS") == -1.0 && Cell(c, D1, "LOCALS") == 0.0
  {
    WhereThree(c, DateKey, D1);
    var day := Where(c, DateKey, D1);
    assert day == [c[0], c[1]];
    WhereTwo(c[0], c[1], CategoryKey, "RETAIL");
    WhereTwo(c[0], c[1], CategoryKey, "FOREIGNERS");
    WhereTwo(c[0], c[1], CategoryKey, "LOCALS");
    assert Where(day, CategoryKey, "RETAIL") == [c[0]];
    assert Where(day, CategoryKey, "FOREIGNERS") == [c[1]];
    assert Where(day, CategoryKey, "LOCALS") == [];
    SumOne(c[0], Net);
    SumOne(c[1], Net);
  }

  lemma SecondDay(c: seq<Row>)
    requires Shaped(c)
    ensures Cell(c, D2, "RETAIL") == 0.0 && Cell(c, D2, "FOREIGNERS") == 0.0 && Cell(c, D2, "LOCALS") == 0.5
  {
    WhereThree(c, DateKey, D2);
    var day := Where(c, DateKey, D2);
    assert day == [c[2]];
    WhereOne(c[2], CategoryKey, "RETAIL");
    WhereOne(c[2], CategoryKey, "FOREIGNERS");
    WhereOne(c[2], CategoryKey, "LOCALS");
    assert Where(day, CategoryKey, "RETAIL") == [];
    assert Where(day, CategoryKey, "FOREIGNERS") == [];
    assert Where(day, CategoryKey, "LOCALS") == [c[2]];
    SumOne(c[2], Net);
  }

  lemma ShapedDaily(c: seq<Row>)
    requires Shaped(c)
    ensures IsDensePivot(c, CategoryKey, Daily())
  {
    var p := Daily();
    ShapedKeys(c);
    FirstDay(c);
    SecondDay(c);
    assert forall key :: key in p <==> key.0 in Dates(c) && key.1 in Keys(c, CategoryKey);
    forall key | key in p ensures p[key] == Cell(c, key.0, key.1) {
      if key.0 == D1 {
        if key.1 == "RETAIL" {
        } else if key.1 == "FOREIGNERS" {
        } else {
          assert key.1 == "LOCALS";
        }
      } else {
        if key.1 == "RETAIL" {
        } else if key.1 == "FOREIGNERS" {
        } else {
          assert key.1 == "LOCALS";
        }
      }
    }
  }

  /** The views of the three trades: one summary row per category, totals of 2, -1 and 0.5
      million, and daily cells that are 0 for the categories without a trade that day. */
  lemma SheetViews(w: Views)
    requires IsViews(Normalize(Sheet()), w)
    ensures multiset(w.summary) == multiset(Summary())
    ensures w.netByType == map["RETAIL" := 2.0, "FOREIGNERS" := -1.0, "LOCALS" := 0.5]
    ensures w.volumeByType == map["RETAIL" := 5.0, "FOREIGNERS" := 1.0, "LOCALS" := 0.5]
    ensures w.daily == Daily()
  {
    SheetCleaned();
    var c := Normalize(Sheet());
    CleanedShaped();
    ShapedSummary(c);
    Consistency.SummaryDeterminedByTable(c, w.summary, Summary());
    ShapedTotals(c);
    Consistency.TotalDeterminedByTable(c, w.netByType, map["RETAIL" := 2.0, "FOREIGNERS" := -1.0, "LOCALS" := 0.5], Net);
    Consistency.TotalDeterminedByTable(c, w.volumeByType, map["RETAIL" := 5.0, "FOREIGNERS" := 1.0, "LOCALS" := 0.5], Total);
    ShapedDaily(c);
    Consistency.PivotDeterminedByTable(c, CategoryKey, w.daily, Daily());
  }

  lemma LocalsOf(oil: SummaryRow, other: SummaryRow, bank: SummaryRow, mining: SummaryRow)
    requires oil.invType == "LOCALS" && other.invType == "RETAIL"
    requires bank.invType == "LOCALS" && mining.invType == "LOCALS"
    ensures OfType([oil, other, bank, mining], "LOCALS") == [oil, bank, mining]
  {
    assert OfType([mining], "LOCALS") == [mining] by {
      assert [mining][1..] == [];
    }
    assert OfType([bank, mining], "LOCALS") == [bank, mining] by {
      assert [bank, mining][1..] == [mining];
    }
    assert OfType([other, bank, mining], "LOCALS") == [bank, mining] by {
      assert [other, bank, mining][1..] == [bank, mining];
      assert "RETAIL" != "LOCALS";
    }
    assert [oil, other, bank, mining][1..] == [other, bank, mining];
  }

  lemma BankBeforeOil()
    ensures LexLess("BANK", "OIL")
  {
    assert "BANK"[0] == 'B' && "OIL"[0] == 'O';
  }

  lemma LocalsRankedOrder(oil: SummaryRow, bank: SummaryRow, mining: SummaryRow)
    requires oil == SummaryRow("LOCALS", "OIL", 1.0)
    requires bank == SummaryRow("LOCALS", "BANK", 1.0) && mining == SummaryRow("LOCALS", "MINING", -2.0)
    ensures Ranked([bank, oil, mining])
  {
    BankBeforeOil();
    assert RanksNoLater(bank, oil);
    var r := [bank, oil, mining];
    forall i, j | 0 <= i < j < 3 ensures RanksNoLater(r[i], r[j]) {
      if i == 0 && j == 1 {
        assert r[i] == bank && r[j] == oil;
      }
    }
  }

  lemma LocalsSorted(oil: SummaryRow, bank: SummaryRow, mining: SummaryRow)
    requires oil == SummaryRow("LOCALS", "OIL", 1.0)
    requires bank == SummaryRow("LOCALS", "BANK", 1.0) && mining == SummaryRow("LOCALS", "MINING", -2.0)
    ensures SortByNet([oil, bank, mining]) == [bank, oil, mining]
  {
    var ranked := [bank, oil, mining];
    var sorted := SortByNet([oil, bank, mining]);
    LocalsRankedOrder(oil, bank, mining);
    assert multiset(sorted) == multiset(ranked);
    forall e | e in sorted ensures e.invType == "LOCALS" {
      assert e in multiset(sorted);
    }
    RankedUnique(sorted, ranked, "LOCALS");
  }

  lemma TopBottomIsHeadAndTail(s: seq<SummaryRow>, c: string, n: int)
    ensures TopBottom(s, c, n) == (Head(SortByNet(OfType(s, c)), n), Tail(SortByNet(OfType(s, c)), n))
  {
  }

  /** Ranking with a tie: the two local sectors at 1 million come in sector-name order, the
      retail row is ignored, and the bottom two keep the descending order. */
  lemma RankingWithTie(oil: SummaryRow, other: SummaryRow, bank: SummaryRow, mining: SummaryRow)
    requires oil == SummaryRow("LOCALS", "OIL", 1.0) && other == SummaryRow("RETAIL", "BANK", 5.0)
    requires bank == SummaryRow("LOCALS", "BANK", 1.0) && mining == SummaryRow("LOCALS", "MINING", -2.0)
    ensures TopBottom([oil, other, bank, mining], "LOCALS", 2) == ([bank, oil], [oil, mining])
  {
    var s := [oil, other, bank, mining];
    var ranked := [bank, oil, mining];
    assert Head(ranked, 2) == [bank, oil] && Tail(ranked, 2) == [oil, mining];
    TopBottomIsHeadAndTail(s, "LOCALS", 2);
    LocalsOf(oil, other, bank, mining);
    LocalsSorted(oil, bank, mining);
  }
}
