/** The dashboard object (dashboard_claude.py, class GenialDashboard): the cleaned table and
    the five views derived from it, held in fields that loading a sheet assigns step by step.
    Its invariant Valid says that the views are exactly the views of the table. */
module Dashboard {
  import opened Table
  import opened Normalizer
  import opened Aggregator
  import RankQuery

  /** The number of sectors a ranking query returns when the caller gives none. */
  const DefaultCount: int := 3

  class GenialDashboard {
    var data: seq<Row>
    var netSectorSummary: seq<SummaryRow>
    var dailyEvolution: map<(Date, string), real>
    var evolSector: map<(Date, (string, string)), real>
    var totalNetByType: map<string, real>
    var volumeTotalByType: map<string, real>

    /** The table is cleaned and every view is the view of that table. */
    ghost predicate Valid()
      reads this
    {
      && Canonical(data)
      && IsViews(data, Views(netSectorSummary, totalNetByType, volumeTotalByType, dailyEvolution, evolSector))
    }

    /** A dashboard with no sheet loaded: an empty table and empty views. */
    constructor ()
      ensures Valid()
      ensures data == [] && netSectorSummary == []
      ensures totalNetByType == map[] && volumeTotalByType == map[]
      ensures dailyEvolution == map[] && evolSector == map[]
    {
      data := [];
      netSectorSummary := [];
      dailyEvolution := map[];
      evolSector := map[];
      totalNetByType := map[];
      volumeTotalByType := map[];
    }

    /** The cleaning stage: rename, fill, map sectors, map investors, keep the three categories.
        The views are not touched. */
    method CleanData(raw: seq<RawRow>)
      modifies this
      ensures data == Normalize(raw)
      ensures Canonical(data)
      ensures |data| <= |raw|
      ensures netSectorSummary == old(netSectorSummary) && dailyEvolution == old(dailyEvolution)
      ensures evolSector == old(evolSector) && totalNetByType == old(totalNetByType)
      ensures volumeTotalByType == old(volumeTotalByType)
    {
      data := RenameColumns(raw);
      data := FillNulls(data);
      data := ReplaceSectors(data);
      data := ReplaceInvestors(data);
      data := KeepValidInvestors(data);
    }

    /** The aggregation stage: the five views of the cleaned table. The table is not touched. */
    method ProcessData()
      requires Canonical(data)
      modifies this
      ensures data == old(data)
      ensures Valid()
    {
      SummarizeSectors();
      TotalByType();
      DailyEvolution();
      SectorEvolution();
    }

    /** Lines 87-88: group the net amount by (category, sector), then scale the column in place. */
    method SummarizeSectors()
      modifies this
      ensures IsSectorSummary(data, netSectorSummary)
      ensures data == old(data) && dailyEvolution == old(dailyEvolution) && evolSector == old(evolSector)
      ensures totalNetByType == old(totalNetByType) && volumeTotalByType == old(volumeTotalByType)
    {
      netSectorSummary := SectorSums(data);
      netSectorSummary := SummaryInMillions(netSectorSummary);
      SectorSummaryCorrect(data);
    }

    /** Lines 91 and 94: the net and the traded volume of each category. */
    method TotalByType()
      modifies this
      ensures IsTotalByType(data, totalNetByType, Net) && IsTotalByType(data, volumeTotalByType, Total)
      ensures data == old(data) && netSectorSummary == old(netSectorSummary)
      ensures dailyEvolution == old(dailyEvolution) && evolSector == old(evolSector)
    {
      totalNetByType := InMillions(GroupTotals(data, CategoryKey, Net));
      TotalsCorrect(data, Net);
      volumeTotalByType := InMillions(GroupTotals(data, CategoryKey, Total));
      TotalsCorrect(data, Total);
    }

    /** Lines 97-104: the pivot of the net amount by date and category, zero filled, then scaled
        in place. */
    method DailyEvolution()
      modifies this
      ensures IsDensePivot(data, CategoryKey, dailyEvolution)
      ensures data == old(data) && netSectorSummary == old(netSectorSummary) && evolSector == old(evolSector)
      ensures totalNetByType == old(totalNetByType) && volumeTotalByType == old(volumeTotalByType)
    {
      dailyEvolution := GroupTotals(data, DayCategoryKey, Net);
      dailyEvolution := ZeroFill(dailyEvolution, Dates(data), Keys(data, CategoryKey));
      dailyEvolution := InMillions(dailyEvolution);
      PivotCorrect(data, CategoryKey, DayCategoryKey);
    }

    /** Lines 107-114: the pivot of the net amount by date and (category, sector), zero filled,
        then scaled in place. */
    method SectorEvolution()
      modifies this
      ensures IsDensePivot(data, PairKey, evolSector)
      ensures data == old(data) && netSectorSummary == old(netSectorSummary) && dailyEvolution == old(dailyEvolution)
      ensures totalNetByType == old(totalNetByType) && volumeTotalByType == old(volumeTotalByType)
    {
      evolSector := GroupTotals(data, DayPairKey, Net);
      evolSector := ZeroFill(evolSector, Dates(data), Keys(data, PairKey));
      evolSector := InMillions(evolSector);
      PivotCorrect(data, PairKey, DayPairKey);
    }

    /** Loading a sheet: None stands for a sheet that could not be found or read, which leaves
        the dashboard as it was and reports failure; otherwise the table is the cleaned sheet
        and every view is a view of it. */
    method LoadData(sheet: Option<seq<RawRow>>) returns (ok: bool)
      modifies this
      ensures ok <==> sheet.Some?
      ensures sheet.None? ==> unchanged(this)
      ensures sheet.Some? ==> data == Normalize(sheet.value) && Valid()
    {
      if sheet.None? {
        return false;
      }
      CleanData(sheet.value);
      ProcessData();
      return true;
    }

    /** The ranking query on the current summary. On a valid dashboard every returned row
        carries the net amount, in millions, of its category and sector in the table. */
    method GetTopBottomSectors(invType: string, n: int := DefaultCount) returns (top: seq<SummaryRow>, bottom: seq<SummaryRow>)
      ensures (top, bottom) == RankQuery.TopBottom(netSectorSummary, invType, n)
      ensures Valid() ==> forall e :: e in top || e in bottom ==>
                e.invType == invType && e.net == Scale(SumOf(Where(Where(data, CategoryKey, invType), SectorKey, e.sector), Net))
    {
      var r := RankQuery.TopBottom(netSectorSummary, invType, n);
      top, bottom := r.0, r.1;
    }
  }
}
