# Genial brokerage dashboard: a verified model of its data core

`GenialDashboard` (`dashboard_claude.py`) reads a brokerage sheet of trades (date, sector,
sub-sector, segment, account, buy/sell/net/total amounts) into a table, cleans it, derives five
views in millions of the base currency, and answers ranking queries about the sectors of one
investor category. This project models that data core in Dafny and proves what the views and
the ranking mean.

- `table.dfy` (module `Table`): the raw and cleaned rows, the summary rows, and the two
  primitives every view is specified by: `Where` (the rows with a given key, in table order)
  and `SumOf` (the sum of an amount column), with their algebra (selection commutes, a pair
  key is two selections, subtotals over a covering list of distinct keys add up to the total).
- `normalizer.dfy` (module `Normalizer`): the cleaning steps of `_clean_data` as functions on
  the table, in the order of the source: relabel the columns, fill absent categorical cells
  with `Others`, fold the sector codes `FII` and `IBOV` into `Others`, map the account codes to
  `FOREIGNERS`, `LOCALS` and `RETAIL`, and keep only those three categories.
- `aggregator.dfy` (module `Aggregator`): the group-by and pivot steps of `_process_data`, and
  the predicates that specify the five views (`IsSectorSummary`, `IsTotalByType`,
  `IsDensePivot`, gathered in `IsViews`), with lemmas showing that the steps produce them.
- `rank_query.dfy` (module `RankQuery`): the category filter, the descending sort, and the
  head and tail of `get_top_bottom_sectors`, with pandas' rule for a negative count.
- `dashboard.dfy` (module `Dashboard`): the class `GenialDashboard` with the six fields of the
  source. `CleanData` and the four aggregation methods assign the fields step by step, as the
  source does; the class invariant `Valid` says the views are exactly the views of the table.
- `consistency.dfy` (module `Consistency`): how the views agree with each other (a category's
  sector rows add up to its total, a pivot column adds up to the total or summary entry, the
  two totals share their categories, the empty table has empty views) and that the views and
  the ranking are determined by the cleaned table alone.
- `scenario.dfy` (module `Scenario`): worked examples: three trades cleaned and aggregated, a
  row of an unknown desk that changes nothing, and a ranking query with a tie.

Amounts are integers and the views are exact reals (sum / 1 000 000). Dates are opaque keys.
The summary lists its pairs in order of first appearance in the table, where the source's
group-by lists them in lexicographic key order; the model proves that the ranking query, the
one modelled consumer of the summary, does not depend on that order
(`RankingIgnoresSummaryOrder`, `RankingDeterminedByTable`). pandas' `sort_values` promises no
order between equal net amounts; the model breaks such ties by sector name (`RanksNoLater`).

## Model

| member | source | states |
|---|---|---|
| Dashboard.GenialDashboard.constructor | dashboard_claude.py:14-20 | A new dashboard holds an empty table and empty views, and its invariant holds. |
| Dashboard.GenialDashboard.CleanData | dashboard_claude.py:47-82 | The table becomes the cleaning of the sheet, every row canonical and no more rows than the sheet; the views are not touched. |
| Dashboard.GenialDashboard.ProcessData | dashboard_claude.py:84-114 | On a cleaned table, the table is kept and all five views become exactly the views of that table. |
| Dashboard.GenialDashboard.SummarizeSectors | dashboard_claude.py:87-88 | The summary has one row per observed (category, sector) pair, no pair twice, each the net sum of its rows in millions; no other field changes. |
| Dashboard.GenialDashboard.TotalByType | dashboard_claude.py:91-94 | Net and volume totals per observed category, each the sum of its rows in millions; no other field changes. |
| Dashboard.GenialDashboard.DailyEvolution | dashboard_claude.py:97-104 | A cell for every observed date and category and for no other key, each the net sum of that day and category in millions; no other field changes. |
| Dashboard.GenialDashboard.SectorEvolution | dashboard_claude.py:107-114 | The same dense rule over dates and observed (category, sector) pairs; no other field changes. |
| Dashboard.GenialDashboard.LoadData | dashboard_claude.py:22-45 | Success exactly when a sheet was read; no sheet leaves the dashboard unchanged; otherwise the table is the cleaned sheet and the invariant holds. |
| Dashboard.GenialDashboard.GetTopBottomSectors | dashboard_claude.py:116-125 | Returns the ranking query on the summary, with a default count of 3; on a valid dashboard each returned row has the category and the net sum in millions of its sector's rows. |
| Normalizer.RenameColumns | dashboard_claude.py:54-64 | The relabelled table has the sheet's rows, one for one and in order, each the relabelling of the sheet row at its position. |
| Normalizer.Rename | dashboard_claude.py:54-64 | Each renamed field holds the value of the sheet column it is renamed from. |
| Normalizer.FillCell | dashboard_claude.py:67 | A filled cell is always present: a present value is kept, an absent one becomes `Others`. |
| Normalizer.Replace | dashboard_claude.py:70 | Replacement changes a value only when it is a key of the mapping, and then to its image. |
| Normalizer.FillNulls | dashboard_claude.py:67 | Row by row, every categorical cell becomes present: present values are kept, absent ones become `Others`, and the date and amounts are untouched. |
| Normalizer.ReplaceSectors | dashboard_claude.py:70 | Row by row, only the sector column changes, and it changes as the sector mapping dictates. |
| Normalizer.SectorMappingExact | dashboard_claude.py:70 | The sector mapping changes exactly `FII` and `IBOV`, both to `Others`. |
| Normalizer.InvestorMappingExact | dashboard_claude.py:73-78 | The investor mapping changes exactly the three account codes, each to its category. |
| Normalizer.ReplaceInvestors | dashboard_claude.py:73-78 | Row by row, only the category column changes, and it changes as the investor mapping dictates. |
| Normalizer.KeepValidInvestors | dashboard_claude.py:81-82 | The filter keeps exactly the rows whose category is one of the three, and never more rows. |
| Normalizer.KeepValidIsSubsequence | dashboard_claude.py:81-82 | What the filter keeps is an order-preserving subsequence of its input. |
| Normalizer.KeepAllValid | dashboard_claude.py:81-82 | A table whose rows are all of the three categories passes the filter unchanged. |
| Normalizer.KeepValidAppend | dashboard_claude.py:81-82 | The filter of two tables one after the other is the concatenation of their filters. |
| Normalizer.Clean | dashboard_claude.py:67-82 | Every cleaned row has no absent cell, no folded sector code and one of the three categories; the result is no longer than the input. |
| Normalizer.CanonicalIsFixedPoint | dashboard_claude.py:67-82 | Cleaning a table whose rows are all canonical returns it unchanged. |
| Normalizer.CleanIdempotent | dashboard_claude.py:67-82 | Cleaning twice gives the same table as cleaning once. |
| Normalizer.Normalize | dashboard_claude.py:47-82 | The cleaned sheet has only canonical rows (no absent cell, no folded sector code, one of the three categories) and no more rows than the sheet. |
| Normalizer.NormalizeAppend | dashboard_claude.py:47-82 | Cleaning works row by row: the cleaning of two sheets in sequence is the concatenation of their cleanings. |
| Normalizer.NormalizeOne | dashboard_claude.py:47-82 | One sheet row is kept exactly when its account is accepted, and then carries its date, amounts, filled cells, mapped sector and category. |
| Normalizer.DropsUnaccepted | dashboard_claude.py:73-82 | A row whose account is neither a known code nor a category name is dropped wherever it stands. |
| Normalizer.NothingAcceptedIsEmpty | dashboard_claude.py:81-82 | A sheet with no accepted account cleans to the empty table. |
| Table.WhereMembers | dashboard_claude.py:87 | A selection holds exactly the rows with the key, and no more rows than the table. |
| Table.WhereCommutes | dashboard_claude.py:97-114 | Selecting on two keys gives the same rows in either order. |
| Table.WherePair | dashboard_claude.py:87 | Selecting on a pair key is selecting on each component in turn. |
| Table.SumGroupsAddRow | dashboard_claude.py:87-91 | A new row adds its amount to the subtotal of its own key, if listed, and to no other. |
| Table.Partition | dashboard_claude.py:87-91 | Subtotals over distinct keys covering every row add up to the grand total. |
| Aggregator.Accumulate | dashboard_claude.py:87 | Adding one row to a group-by grows its key's group by the amount, creates it if new, keeps keys distinct and leaves every other group alone. |
| Aggregator.GroupSum | dashboard_claude.py:87 | One group per observed key, no key twice, each holding the sum over the rows with that key. |
| Aggregator.LookupAt | dashboard_claude.py:87 | In a group-by with distinct keys, looking up a group's key gives that group's sum. |
| Aggregator.GroupTotals | dashboard_claude.py:91-94 | The group-by as a series: keys are the observed keys, each value the sum over its rows. |
| Aggregator.SectorSums | dashboard_claude.py:87 | One summary row per observed (category, sector) pair, no pair twice, each with the net sum of its rows. |
| Aggregator.SummaryInMillions | dashboard_claude.py:88 | The scaled summary keeps its rows' pairs and order, each net amount divided by a million. |
| Aggregator.InMillions | dashboard_claude.py:91-94 | A scaled series or pivot keeps its keys, each value divided by a million. |
| Aggregator.ZeroFill | dashboard_claude.py:97-104 | The filled pivot has a cell for exactly every (date, column) of the cross product, holding the grouped sum or 0. |
| Aggregator.SectorSummaryCorrect | dashboard_claude.py:87-88 | Grouping and scaling produce a table's sector summary. |
| Aggregator.TotalsCorrect | dashboard_claude.py:91-94 | Grouping by category and scaling produce the per-category total of any amount. |
| Aggregator.PivotCorrect | dashboard_claude.py:97-114 | Grouping by (date, column), zero filling and scaling produce the dense pivot. |
| RankQuery.OfType | dashboard_claude.py:118-119 | The category filter never lengthens the summary. |
| RankQuery.OfTypeMembers | dashboard_claude.py:118-119 | The filter keeps exactly the summary rows of the category. |
| RankQuery.OfTypeMultiset | dashboard_claude.py:118-119 | The filter keeps every copy of a row of the category and none of any other. |
| RankQuery.LexLessIrreflexive | dashboard_claude.py:120 | No sector name sorts before itself. |
| RankQuery.LexLessTransitive | dashboard_claude.py:120 | Sector-name order is transitive. |
| RankQuery.LexLessAsymmetric | dashboard_claude.py:120 | Two sector names never sort before each other. |
| RankQuery.LexLessTotal | dashboard_claude.py:120 | Of two different sector names one sorts first. |
| RankQuery.RanksNoLaterTotal | dashboard_claude.py:120 | Any two summary rows are comparable in the ranking. |
| RankQuery.RanksNoLaterTransitive | dashboard_claude.py:120 | The ranking is transitive. |
| RankQuery.RanksNoLaterAntisymmetric | dashboard_claude.py:120 | Within one category, rows that rank no later than each other are equal. |
| RankQuery.Insert | dashboard_claude.py:120 | Inserting into a ranked list keeps it ranked and adds exactly the new row. |
| RankQuery.SortByNet | dashboard_claude.py:120 | The sort is ranked, largest net first, and a permutation of its input. |
| RankQuery.TopBottom | dashboard_claude.py:116-125 | Both lists have length min(n, k) (pandas' rule for negative n), hold only rows of the summary in the category, are ranked and drawn from the category; no left-out row ranks before a top row or after a bottom row; with k <= n both are the whole category. |
| RankQuery.Head | dashboard_claude.py:122 | The head is the prefix of the list of length min(n, k), or all but the last -n rows for a negative n. |
| RankQuery.Tail | dashboard_claude.py:123 | The tail is the suffix of the list of length min(n, k), or all but the first -n rows for a negative n. |
| RankQuery.TopIsBest | dashboard_claude.py:122 | The first m rows of a ranked list are ranked, come from it, and rank no later than any row left out. |
| RankQuery.BottomIsWorst | dashboard_claude.py:123 | The rows of a ranked list from a position on are ranked, come from it, and rank no earlier than any row left out. |
| RankQuery.WholeList | dashboard_claude.py:122-123 | A list of at most n rows is its own head and its own tail. |
| RankQuery.FirstIsBest | dashboard_claude.py:120 | The first row of a ranked list ranks no later than each of its rows. |
| RankQuery.RankedUnique | dashboard_claude.py:120 | Two ranked lists of one category with the same rows are equal: the sort has one answer. |
| RankQuery.RankingIgnoresSummaryOrder | dashboard_claude.py:116-125 | The query's answer depends on which rows the summary holds, not on their order. |
| Consistency.NetTotalIsSumGroups | dashboard_claude.py:87-91 | The sum of a category's summary values is the scaled sum of the per-sector subtotals. |
| Consistency.OfTypeDistinctSectors | dashboard_claude.py:87 | A category's summary rows name each sector once. |
| Consistency.SectorsCover | dashboard_claude.py:87 | Every row of a category has its sector among that category's summary rows. |
| Consistency.SectorRowsAddUpToTotal | dashboard_claude.py:87-91 | A category's summary values add up to its net total (0 for an absent category). |
| Consistency.ColumnSumIsTotal | dashboard_claude.py:97-114 | A pivot column summed over all observed dates is the scaled net sum of that column's rows. |
| Consistency.DailyColumnsAddUpToTotal | dashboard_claude.py:91-104 | A category's daily column adds up to its net total. |
| Consistency.SectorColumnsAddUpToSummary | dashboard_claude.py:107-114 | A (category, sector) column of the sector pivot adds up to its summary value. |
| Consistency.UntradedCellIsZero | dashboard_claude.py:97-114 | A pivot cell with no trade on that date and column is 0. |
| Consistency.TotalsShareCategories | dashboard_claude.py:91-94 | Net and volume totals have the same categories, all among the three, so at most three. |
| Consistency.EmptyTableEmptyViews | dashboard_claude.py:84-114 | The views of the empty table are all empty. |
| Consistency.NothingAcceptedNoViews | dashboard_claude.py:81-114 | A sheet without an accepted account gives five empty views. |
| Consistency.SummaryDeterminedByTable | dashboard_claude.py:87-88 | Two sector summaries of one table hold the same rows. |
| Consistency.ViewsDeterminedByTable | dashboard_claude.py:84-114 | The five views of a table are determined by it, the summary up to order. |
| Consistency.UnacceptedRowChangesNoView | dashboard_claude.py:73-114 | A row with an unaccepted account, wherever it stands in the sheet, changes no view. |
| Consistency.RankingDeterminedByTable | dashboard_claude.py:116-125 | Any two sector summaries of one table give the same ranking answers. |
| Scenario.SheetCleaned | dashboard_claude.py:47-82 | Three concrete trades clean to the expected rows: categories mapped, `FII` folded, absent cells filled. |
| Scenario.UnknownDeskDropped | dashboard_claude.py:81-82 | A fourth row of an unknown desk leaves the cleaned table as it was. |
| Scenario.SheetViews | dashboard_claude.py:84-104 | The summary, the two totals and the daily pivot of the three trades, with zero cells for categories without a trade that day. |
| Scenario.RankingWithTie | dashboard_claude.py:116-125 | A top and bottom two with a tie at the same net amount, with the other category's row ignored. |

## Left out

- Finding the newest `Brokeragem*.xlsx` in the Downloads folder and reading it (lines 22-45) are file-system I/O and a spreadsheet library: `LoadData` takes the sheet as a parameter, `None` standing for a sheet that is missing or unreadable. Logging is not modelled.
- An exception during cleaning or aggregation (a missing column, say) also makes `load_data` return False, after some fields were already assigned; the model has a fixed schema, so this path cannot arise.
- Parsing `DT_NEGOCIO` as a date and using it as the index (lines 50-51): dates are opaque integer keys.
- The null fill at line 67 also reaches the numeric columns; the model assumes amounts are always present, as the loader is meant to ensure.
- Floating-point amounts and division: the model uses integer amounts and exact real quotients.
- Before the first load the source fields are `None`; the model starts from an empty table and empty views.
- The group-by at line 87 lists pairs in sorted key order; the model lists them in order of first appearance and proves only that the ranking query does not depend on that order.
- RankQuery.TopBottom: pandas' sort at line 120 promises no order among equal net amounts; the model breaks ties by sector name, so it states one of the orders the source allows.
- The order in which the net-flow chart (lines 133-141) draws its traces and bars follows the summary's row order; the model lists summary pairs in order of first appearance rather than pandas' sorted key order, so it does not reproduce that drawing order.
- The Plotly charts, the Dash layout and callbacks (lines 127-291), `_create_summary_section` (lines 293-333) and the server start-up (lines 351-368) are presentation, not data.
