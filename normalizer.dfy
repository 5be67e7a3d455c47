/** The cleaning stage of the dashboard (dashboard_claude.py, _clean_data): relabel the columns,
    fill absent categorical cells, map the sector and investor codes, and keep only the rows of
    the three investor categories the dashboard reports on. */
module Normalizer {
  import opened Table

  /** The sentinel written into absent cells and the target of the sector mapping. */
  const Others: string := "Others"

  /** The sector values folded into the sentinel. */
  const SectorMapping: map<string, string> := map["FII" := Others, "IBOV" := Others]

  /** The account codes of the sheet and the investor category each one stands for. */
  const InvestorMapping: map<string, string> :=
    map["ESTRANGEIRO" := "FOREIGNERS", "LOCAL INSTITUCIONAL" := "LOCALS", "GENIAL" := "RETAIL"]

  /** The categories a cleaned row may carry. */
  const ValidInvestors: set<string> := {"LOCALS", "FOREIGNERS", "RETAIL"}

  /** The raw account values whose rows survive cleaning: the three codes, and the three
      category names themselves, which the mapping leaves alone. */
  predicate Accepted(c: Cell) {
    c.Text? && (c.value in InvestorMapping || c.value in ValidInvestors)
  }

  /** The category an accepted account value ends up as. */
  function CategoryFor(account: string): string {
    if account in InvestorMapping then InvestorMapping[account] else account
  }

  predicate IsValidInvestor(c: Cell) {
    c.Text? && c.value in ValidInvestors
  }

  /** What every cleaned row satisfies: no absent categorical cell, no folded sector code,
      and a category out of the three. */
  predicate CanonicalRow(r: Row) {
    && r.sector.Text? && r.subSector.Text? && r.segment.Text? && r.invType.Text?
    && r.sector.value !in SectorMapping
    && IsValidInvestor(r.invType)
  }

  predicate Canonical(rows: seq<Row>) {
    forall r :: r in rows ==> CanonicalRow(r)
  }

  /** The column relabelling: a row under the dashboard's names holding the same values. */
  function Rename(x: RawRow): (r: Row)
    ensures r.date == x.dtNegocio && r.invType == x.conta
    ensures r.sector == x.cdSetor && r.subSector == x.cdSubsetor && r.segment == x.cdSegmento
    ensures r.buy == x.vlCompra && r.sell == x.vlVenda && r.net == x.vlNet && r.total == x.vlTotal
  {
    Row(x.dtNegocio, x.cdSetor, x.cdSubsetor, x.cdSegmento, x.conta, x.vlCompra, x.vlVenda, x.vlNet, x.vlTotal)
  }

  /** The relabelled table: the sheet's rows, in order, each under the dashboard's names. */
  function RenameColumns(raw: seq<RawRow>): (rows: seq<Row>)
    ensures |rows| == |raw|
    ensures forall i :: 0 <= i < |raw| ==> rows[i] == Rename(raw[i])
  {
    seq(|raw|, i requires 0 <= i < |raw| => Rename(raw[i]))
  }

  /** Filling one cell: a present value is kept, an absent one becomes the sentinel. */
  function FillCell(c: Cell): (r: Cell)
    ensures r.Text?
    ensures c.Text? ==> r == c
    ensures c.Null? ==> r == Text(Others)
  {
    Text(c.GetOr(Others))
  }

  function FillRow(r: Row): Row {
    r.(sector := FillCell(r.sector), subSector := FillCell(r.subSector),
       segment := FillCell(r.segment), invType := FillCell(r.invType))
  }

  /** r is x with its categorical cells filled: every one present, a present value kept, an
      absent one the sentinel, and the date and amounts untouched. */
  predicate FilledFrom(x: Row, r: Row) {
    && r.sector.Text? && r.subSector.Text? && r.segment.Text? && r.invType.Text?
    && (x.sector.Text? ==> r.sector == x.sector) && (x.sector.Null? ==> r.sector == Text(Others))
    && (x.subSector.Text? ==> r.subSector == x.subSector) && (x.subSector.Null? ==> r.subSector == Text(Others))
    && (x.segment.Text? ==> r.segment == x.segment) && (x.segment.Null? ==> r.segment == Text(Others))
    && (x.invType.Text? ==> r.invType == x.invType) && (x.invType.Null? ==> r.invType == Text(Others))
    && r.date == x.date && r.buy == x.buy && r.sell == x.sell && r.net == x.net && r.total == x.total
  }

  /** Line 67: every absent categorical cell of the table is filled, row by row. */
  function FillNulls(rows: seq<Row>): (r: seq<Row>)
    ensures |r| == |rows|
    ensures forall i :: 0 <= i < |rows| ==> FilledFrom(rows[i], r[i])
  {
    seq(|rows|, i requires 0 <= i < |rows| => FillRow(rows[i]))
  }

  /** Value replacement with a dictionary: a text value that is a key of the mapping is
      replaced by its image; every other value, and an absent cell, is kept. */
  function Replace(c: Cell, mapping: map<string, string>): (r: Cell)
    ensures r != c ==> c.Text? && c.value in mapping && r == Text(mapping[c.value])
    ensures c.Text? && c.value in mapping ==> r == Text(mapping[c.value])
  {
    if c.Text? && c.value in mapping then Text(mapping[c.value]) else c
  }

  /** Line 70: the sector column mapped through the sector mapping; no other column changes. */
  function ReplaceSectors(rows: seq<Row>): (r: seq<Row>)
    ensures |r| == |rows|
    ensures forall i :: 0 <= i < |rows| ==>
      r[i].(sector := rows[i].sector) == rows[i] && r[i].sector == Replace(rows[i].sector, SectorMapping)
  {
    seq(|rows|, i requires 0 <= i < |rows| => rows[i].(sector := Replace(rows[i].sector, SectorMapping)))
  }

  /** Line 78: the category column mapped through the investor mapping; no other column changes. */
  function ReplaceInvestors(rows: seq<Row>): (r: seq<Row>)
    ensures |r| == |rows|
    ensures forall i :: 0 <= i < |rows| ==>
      r[i].(invType := rows[i].invType) == rows[i] && r[i].invType == Replace(rows[i].invType, InvestorMapping)
  {
    seq(|rows|, i requires 0 <= i < |rows| => rows[i].(invType := Replace(rows[i].invType, InvestorMapping)))
  }

  /** a is a (not necessarily contiguous) subsequence of b: the elements of a occur in b in the same order. */
  predicate IsSubsequence(a: seq<Row>, b: seq<Row>) {
    if a == [] then true
    else if b == [] then false
    else (a[0] == b[0] && IsSubsequence(a[1..], b[1..])) || IsSubsequence(a, b[1..])
  }

  /** The filter on the category column: the rows of the three categories, in table order. */
  function KeepValidInvestors(rows: seq<Row>): (r: seq<Row>)
    ensures forall x :: x in r <==> x in rows && IsValidInvestor(x.invType)
    ensures |r| <= |rows|
  {
    if rows == [] then []
    else (if IsValidInvestor(rows[0].invType) then [rows[0]] else []) + KeepValidInvestors(rows[1..])
  }

  /** The filter only removes rows: what it keeps is a subsequence of its input. */
  lemma {:induction false} KeepValidIsSubsequence(rows: seq<Row>)
    ensures IsSubsequence(KeepValidInvestors(rows), rows)
  {
    if rows != [] {
      KeepValidIsSubsequence(rows[1..]);
      var rest := KeepValidInvestors(rows[1..]);
      if IsValidInvestor(rows[0].invType) {
        assert KeepValidInvestors(rows) == [rows[0]] + rest;
        assert ([rows[0]] + rest)[1..] == rest;
      } else {
        assert KeepValidInvestors(rows) == rest;
      }
    }
  }

  /** The value-level cleaning, steps in the order of the source: fill, sector mapping,
      investor mapping, filter. */
  function Clean(rows: seq<Row>): (r: seq<Row>)
    ensures Canonical(r)
    ensures |r| <= |rows|
  {
    var filled := FillNulls(rows);
    var sectors := ReplaceSectors(filled);
    var investors := ReplaceInvestors(sectors);
    assert forall i :: 0 <= i < |investors| ==> investors[i].sector.Text? && investors[i].sector.value !in SectorMapping;
    KeepValidInvestors(investors)
  }

  /** The whole cleaning of a sheet. */
  function Normalize(raw: seq<RawRow>): (r: seq<Row>)
    ensures Canonical(r)
    ensures |r| <= |raw|
  {
    Clean(RenameColumns(raw))
  }

  /** The sector mapping sends exactly FII and IBOV to the sentinel and changes no other value. */
  lemma SectorMappingExact(c: Cell)
    ensures Replace(c, SectorMapping) != c <==> c == Text("FII") || c == Text("IBOV")
    ensures c == Text("FII") || c == Text("IBOV") ==> Replace(c, SectorMapping) == Text(Others)
  {
  }

  /** The investor mapping changes exactly the three account codes, each to its category. */
  lemma InvestorMappingExact(c: Cell)
    ensures Replace(c, InvestorMapping) != c <==> c.Text? && c.value in {"ESTRANGEIRO", "LOCAL INSTITUCIONAL", "GENIAL"}
    ensures c == Text("ESTRANGEIRO") ==> Replace(c, InvestorMapping) == Text("FOREIGNERS")
    ensures c == Text("LOCAL INSTITUCIONAL") ==> Replace(c, InvestorMapping) == Text("LOCALS")
    ensures c == Text("GENIAL") ==> Replace(c, InvestorMapping) == Text("RETAIL")
  {
  }

  /** A filter that finds every row acceptable returns the table unchanged. */
  lemma {:induction false} KeepAllValid(rows: seq<Row>)
    requires forall r :: r in rows ==> IsValidInvestor(r.invType)
    ensures KeepValidInvestors(rows) == rows
  {
    if rows != [] {
      KeepAllValid(rows[1..]);
      assert rows == [rows[0]] + rows[1..];
    }
  }

  /** A canonical table is a fixed point of the cleaning. */
  lemma CanonicalIsFixedPoint(rows: seq<Row>)
    requires Canonical(rows)
    ensures Clean(rows) == rows
  {
    var filled := FillNulls(rows);
    assert filled == rows by {
      forall i | 0 <= i < |rows| ensures filled[i] == rows[i] {
        assert CanonicalRow(rows[i]);
      }
    }
    var sectors := ReplaceSectors(filled);
    assert sectors == rows by {
      forall i | 0 <= i < |rows| ensures sectors[i] == rows[i] {
        assert CanonicalRow(rows[i]);
      }
    }
    var investors := ReplaceInvestors(sectors);
    assert investors == rows by {
      forall i | 0 <= i < |rows| ensures investors[i] == rows[i] {
        assert CanonicalRow(rows[i]);
        assert rows[i].invType.value !in InvestorMapping;
      }
    }
    KeepAllValid(rows);
  }

  /** Cleaning is idempotent: cleaning a cleaned table changes nothing. */
  lemma CleanIdempotent(rows: seq<Row>)
    ensures Clean(Clean(rows)) == Clean(rows)
  {
    CanonicalIsFixedPoint(Clean(rows));
  }

  lemma {:induction false} KeepValidAppend(a: seq<Row>, b: seq<Row>)
    ensures KeepValidInvestors(a + b) == KeepValidInvestors(a) + KeepValidInvestors(b)
  {
    if a != [] {
      KeepValidAppend(a[1..], b);
      assert (a + b)[1..] == a[1..] + b;
      assert (a + b)[0] == a[0];
    } else {
      assert a + b == b;
    }
  }

  /** Cleaning works row by row: the cleaning of two sheets one after the other is the
      concatenation of their cleanings, so the rows kept stay in input order. */
  lemma NormalizeAppend(a: seq<RawRow>, b: seq<RawRow>)
    ensures Normalize(a + b) == Normalize(a) + Normalize(b)
  {
    RowStepsAppend(a, b);
    KeepValidAppend(RowSteps(a), RowSteps(b));
  }

  /** The row-by-row steps of the cleaning, before the filter. */
  function RowSteps(raw: seq<RawRow>): seq<Row> {
    ReplaceInvestors(ReplaceSectors(FillNulls(RenameColumns(raw))))
  }

  lemma RowStepsAppend(a: seq<RawRow>, b: seq<RawRow>)
    ensures RowSteps(a + b) == RowSteps(a) + RowSteps(b)
  {
    var ra, rb := RenameColumns(a), RenameColumns(b);
    RenameAppend(a, b);
    var fa, fb := FillNulls(ra), FillNulls(rb);
    FillAppend(ra, rb);
    var sa, sb := ReplaceSectors(fa), ReplaceSectors(fb);
    SectorsAppend(fa, fb);
    InvestorsAppend(sa, sb);
  }

  lemma RenameAppend(a: seq<RawRow>, b: seq<RawRow>)
    ensures RenameColumns(a + b) == RenameColumns(a) + RenameColumns(b)
  {
  }

  lemma FillAppend(a: seq<Row>, b: seq<Row>)
    ensures FillNulls(a + b) == FillNulls(a) + FillNulls(b)
  {
  }

  lemma SectorsAppend(a: seq<Row>, b: seq<Row>)
    ensures ReplaceSectors(a + b) == ReplaceSectors(a) + ReplaceSectors(b)
  {
  }

  lemma InvestorsAppend(a: seq<Row>, b: seq<Row>)
    ensures ReplaceInvestors(a + b) == ReplaceInvestors(a) + ReplaceInvestors(b)
  {
  }

  /** One sheet row: it is kept exactly when its account is accepted, and then it carries the
      raw date and amounts, the filled cells, the mapped sector and its category. */
  lemma NormalizeOne(x: RawRow)
    ensures |Normalize([x])| == if Accepted(x.conta) then 1 else 0
    ensures Accepted(x.conta) ==>
      var r := Normalize([x])[0];
      && r.date == x.dtNegocio
      && r.buy == x.vlCompra && r.sell == x.vlVenda && r.net == x.vlNet && r.total == x.vlTotal
      && r.subSector == FillCell(x.cdSubsetor) && r.segment == FillCell(x.cdSegmento)
      && r.sector == Replace(FillCell(x.cdSetor), SectorMapping)
      && r.invType == Text(CategoryFor(x.conta.value))
  {
    var i := ReplaceInvestors(ReplaceSectors(FillNulls(RenameColumns([x]))));
    assert |i| == 1;
    assert i[1..] == [];
  }

  /** A row whose account is not accepted drops out wherever it stands. */
  lemma DropsUnaccepted(a: seq<RawRow>, x: RawRow, b: seq<RawRow>)
    requires !Accepted(x.conta)
    ensures Normalize(a + [x] + b) == Normalize(a + b)
  {
    NormalizeAppend(a + [x], b);
    NormalizeAppend(a, [x]);
    NormalizeAppend(a, b);
    NormalizeOne(x);
  }

  /** A sheet with no accepted account gives the empty table. */
  lemma {:induction false} NothingAcceptedIsEmpty(raw: seq<RawRow>)
    requires forall x :: x in raw ==> !Accepted(x.conta)
    ensures Normalize(raw) == []
  {
    if raw != [] {
      NothingAcceptedIsEmpty(raw[1..]);
      assert raw == [raw[0]] + raw[1..];
      NormalizeAppend([raw[0]], raw[1..]);
      NormalizeOne(raw[0]);
    }
  }
}
