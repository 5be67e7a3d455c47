/** The aggregation stage of the dashboard (dashboard_claude.py, _process_data): the five views
    derived from the cleaned table, each in millions. The views are specified by predicates
    written with the table primitives Where and SumOf; the functions below are the group-by
    and pivot steps the source runs, and the lemmas at the end show that those steps produce
    views satisfying the predicates. */
module Aggregator {
  import opened Table

  /** One group of a group-by: its key and the running sum of its rows. */
  datatype Group<K> = Group(key: K, sum: int)

  predicate DistinctKeys<K(==)>(g: seq<Group<K>>) {
    forall i, j :: 0 <= i < j < |g| ==> g[i].key != g[j].key
  }

  function KeySet<K>(g: seq<Group<K>>): set<K> {
    set e | e in g :: e.key
  }

  /** The sum of the group with key k; 0 when there is no such group. */
  function Lookup<K(==)>(g: seq<Group<K>>, k: K): int {
    if g == [] then 0 else if g[0].key == k then g[0].sum else Lookup(g[1..], k)
  }

  lemma {:induction false} LookupAbsent<K>(g: seq<Group<K>>, k: K)
    requires k !in KeySet(g)
    ensures Lookup(g, k) == 0
  {
    if g != [] {
      assert g[0] in g;
      assert KeySet(g[1..]) <= KeySet(g) by {
        forall e | e in g[1..] ensures e in g { }
      }
      LookupAbsent(g[1..], k);
    }
  }

  /** The groups after the first have distinct keys, none of them the first group's key. */
  lemma DistinctKeysTail<K>(g: seq<Group<K>>)
    requires g != [] && DistinctKeys(g)
    ensures DistinctKeys(g[1..]) && g[0].key !in KeySet(g[1..])
  {
    var tail := g[1..];
    forall a, b | 0 <= a < b < |tail| ensures tail[a].key != tail[b].key {
      assert tail[a] == g[a + 1] && tail[b] == g[b + 1];
    }
    forall e | e in tail ensures e.key != g[0].key {
      var j :| 0 <= j < |tail| && tail[j] == e;
      assert e == g[j + 1];
    }
  }

  lemma {:induction false} LookupAt<K>(g: seq<Group<K>>, i: nat)
    requires DistinctKeys(g) && i < |g|
    ensures Lookup(g, g[i].key) == g[i].sum
  {
    if i > 0 {
      assert g[0].key != g[i].key;
      assert g[1..][i - 1] == g[i];
      DistinctKeysTail(g);
      LookupAt(g[1..], i - 1);
    }
  }

  /** Adding one row's amount v under key k: the group of k grows by v (and is created, at the
      end, when k is new); every other group is left as it was. */
  function Accumulate<K(==,!new)>(g: seq<Group<K>>, k: K, v: int): (r: seq<Group<K>>)
    requires DistinctKeys(g)
    ensures DistinctKeys(r)
    ensures KeySet(r) == KeySet(g) + {k}
    ensures forall k' :: Lookup(r, k') == Lookup(g, k') + (if k' == k then v else 0)
  {
    if g == [] then [Group(k, v)]
    else
      var tail := g[1..];
      DistinctKeysTail(g);
      assert g == [g[0]] + tail;
      assert KeySet(g) == {g[0].key} + KeySet(tail);
      if g[0].key == k then
        var r := [Group(k, g[0].sum + v)] + tail;
        assert r[1..] == tail;
        assert KeySet(r) == {k} + KeySet(tail);
        LookupAbsent(tail, k);
        r
      else
        var rest := Accumulate(tail, k, v);
        var r := [g[0]] + rest;
        assert r[1..] == rest;
        assert KeySet(r) == {g[0].key} + KeySet(rest);
        assert DistinctKeys(r) by {
          forall a, b | 0 <= a < b < |r| ensures r[a].key != r[b].key {
            if a == 0 {
              assert r[b] in rest;
            } else {
              assert r[a] == rest[a - 1] && r[b] == rest[b - 1];
            }
          }
        }
        r
  }

  /** The group-by sum over the rows: one group per observed key, in order of first
      appearance, each holding the sum of the amount over the rows with that key. */
  function GroupSum<K(==,!new)>(rows: seq<Row>, key: Row -> K, val: Row -> int): (g: seq<Group<K>>)
    ensures DistinctKeys(g)
    ensures KeySet(g) == Keys(rows, key)
    ensures forall k :: Lookup(g, k) == SumOf(Where(rows, key, k), val)
  {
    if rows == [] then []
    else
      var s, x := Init(rows), Last(rows);
      assert rows == s + [x];
      assert Keys(rows, key) == Keys(s, key) + {key(x)};
      var g := Accumulate(GroupSum(s, key, val), key(x), val(x));
      assert forall k :: Lookup(g, k) == SumOf(Where(rows, key, k), val) by {
        forall k ensures Lookup(g, k) == SumOf(Where(rows, key, k), val) {
          SumWhereLast(rows, key, k, val);
        }
      }
      g
  }

  /** A group-by sum as a mapping from key to sum (a series indexed by the key). */
  function GroupTotals<K(==,!new)>(rows: seq<Row>, key: Row -> K, val: Row -> int): (m: map<K, real>)
    ensures m.Keys == Keys(rows, key)
    ensures forall k :: k in m ==> m[k] == SumOf(Where(rows, key, k), val) as real
  {
    var g := GroupSum(rows, key, val);
    map k | k in KeySet(g) :: Lookup(g, k) as real
  }

  /** Line 87: the summary table, one row per observed (category, sector) pair, with the sum
      of the net amount. */
  function SectorSums(rows: seq<Row>): (s: seq<SummaryRow>)
    ensures DistinctPairs(s)
    ensures Pairs(s) == Keys(rows, PairKey)
    ensures forall e :: e in s ==> e.net == SumOf(Where(rows, PairKey, PairOf(e)), Net) as real
  {
    var g := GroupSum(rows, PairKey, Net);
    SummaryRowsPairs(g);
    SummaryRowsNet(g);
    SummaryRows(g)
  }

  /** The groups keyed by (category, sector) as summary rows, in group order. */
  function SummaryRows(g: seq<Group<(string, string)>>): (s: seq<SummaryRow>)
    ensures |s| == |g|
    ensures forall i :: 0 <= i < |g| ==> PairOf(s[i]) == g[i].key && s[i].net == g[i].sum as real
  {
    seq(|g|, i requires 0 <= i < |g| => SummaryRow(g[i].key.0, g[i].key.1, g[i].sum as real))
  }

  lemma SummaryRowsPairs(g: seq<Group<(string, string)>>)
    ensures Pairs(SummaryRows(g)) == KeySet(g)
  {
    var s := SummaryRows(g);
    forall k | k in KeySet(g) ensures k in Pairs(s) {
      var e :| e in g && e.key == k;
      var i :| 0 <= i < |g| && g[i] == e;
      assert s[i] in s;
    }
  }

  lemma SummaryRowsNet(g: seq<Group<(string, string)>>)
    requires DistinctKeys(g)
    ensures forall e :: e in SummaryRows(g) ==> e.net == Lookup(g, PairOf(e)) as real
  {
    var s := SummaryRows(g);
    forall e | e in s ensures e.net == Lookup(g, PairOf(e)) as real {
      var i :| 0 <= i < |s| && s[i] == e;
      LookupAt(g, i);
    }
  }

  /** Line 88: the net column of the summary divided by a million, in place. */
  function SummaryInMillions(s: seq<SummaryRow>): (r: seq<SummaryRow>)
    ensures |r| == |s|
    ensures forall i :: 0 <= i < |s| ==> PairOf(r[i]) == PairOf(s[i]) && r[i].net == s[i].net / 1000000.0
  {
    seq(|s|, i requires 0 <= i < |s| => s[i].(net := s[i].net / 1000000.0))
  }

  /** Every value of a mapping divided by a million. */
  function InMillions<K>(m: map<K, real>): (r: map<K, real>)
    ensures r.Keys == m.Keys
    ensures forall k :: k in r ==> r[k] == m[k] / 1000000.0
  {
    map k | k in m :: m[k] / 1000000.0
  }

  /** The zero fill of a pivot table: a cell for every (date, column) of the cross product,
      holding the pivot's value where there is one and 0 elsewhere. */
  function ZeroFill<K(!new)>(p: map<(Date, K), real>, dates: set<Date>, columns: set<K>): (r: map<(Date, K), real>)
    ensures forall key :: key in r <==> key.0 in dates && key.1 in columns
    ensures forall key :: key in r ==> r[key] == if key in p then p[key] else 0.0
  {
    map d, c | d in dates && c in columns :: (d, c) := if (d, c) in p then p[(d, c)] else 0.0
  }

  /** The sector summary of a table: one row per observed (category, sector) pair, no pair
      twice, each with the net amount of its rows in millions. */
  ghost predicate IsSectorSummary(rows: seq<Row>, s: seq<SummaryRow>) {
    && DistinctPairs(s)
    && Pairs(s) == Keys(rows, PairKey)
    && (forall e :: e in s ==>
          e.net == Scale(SumOf(Where(Where(rows, CategoryKey, e.invType), SectorKey, e.sector), Net)))
  }

  /** A per-category total of a table: one entry per observed category, holding the sum of the
      amount val over that category's rows in millions. */
  ghost predicate IsTotalByType(rows: seq<Row>, t: map<string, real>, val: Row -> int) {
    && t.Keys == Keys(rows, CategoryKey)
    && forall c :: c in t ==> t[c] == Scale(SumOf(Where(rows, CategoryKey, c), val))
  }

  /** A dense pivot of a table's net amount by date and column: a cell for every observed date
      and every observed column value, holding the net amount (in millions) of the rows of that
      date and column, which is 0 where there was no trade. */
  ghost predicate IsDensePivot<K(!new)>(rows: seq<Row>, col: Row -> K, p: map<(Date, K), real>) {
    && (forall key :: key in p <==> key.0 in Dates(rows) && key.1 in Keys(rows, col))
    && (forall key :: key in p ==> p[key] == Scale(SumOf(Where(Where(rows, DateKey, key.0), col, key.1), Net)))
  }

  /** The five views the dashboard derives from its table. */
  datatype Views = Views(
    summary: seq<SummaryRow>,
    netByType: map<string, real>,
    volumeByType: map<string, real>,
    daily: map<(Date, string), real>,
    bySector: map<(Date, (string, string)), real>)

  /** The views of a table: the sector summary, the net and volume totals per category, and
      the dense pivots by date and category and by date and (category, sector). */
  ghost predicate IsViews(rows: seq<Row>, w: Views) {
    && IsSectorSummary(rows, w.summary)
    && IsTotalByType(rows, w.netByType, Net)
    && IsTotalByType(rows, w.volumeByType, Total)
    && IsDensePivot(rows, CategoryKey, w.daily)
    && IsDensePivot(rows, PairKey, w.bySector)
  }

  /** Lines 87-88 produce the sector summary. */
  lemma SectorSummaryCorrect(rows: seq<Row>)
    ensures IsSectorSummary(rows, SummaryInMillions(SectorSums(rows)))
  {
    var s := SectorSums(rows);
    var r := SummaryInMillions(s);
    InMillionsKeepsPairs(s);
    forall e | e in r
      ensures e.net == Scale(SumOf(Where(Where(rows, CategoryKey, e.invType), SectorKey, e.sector), Net))
    {
      var i :| 0 <= i < |r| && r[i] == e;
      SummaryEntry(rows, s, i);
    }
  }

  /** The i-th summary row, scaled, holds the net amount in millions of its pair's rows. */
  lemma SummaryEntry(rows: seq<Row>, s: seq<SummaryRow>, i: nat)
    requires i < |s|
    requires forall e :: e in s ==> e.net == SumOf(Where(rows, PairKey, PairOf(e)), Net) as real
    ensures var e := SummaryInMillions(s)[i];
      e.net == Scale(SumOf(Where(Where(rows, CategoryKey, e.invType), SectorKey, e.sector), Net))
  {
    assert s[i] in s;
    WherePairKey(rows, s[i].invType, s[i].sector);
  }

  /** The rows of a (category, sector) pair are the rows of the sector within the category. */
  lemma WherePairKey(rows: seq<Row>, c: string, sector: string)
    ensures Where(rows, PairKey, (c, sector)) == Where(Where(rows, CategoryKey, c), SectorKey, sector)
  {
    WherePair(rows, PairKey, CategoryKey, SectorKey, c, sector);
  }

  lemma InMillionsKeepsPairs(s: seq<SummaryRow>)
    ensures Pairs(SummaryInMillions(s)) == Pairs(s)
  {
    var r := SummaryInMillions(s);
    forall k | k in Pairs(s) ensures k in Pairs(r) {
      var i :| 0 <= i < |s| && PairOf(s[i]) == k;
      assert r[i] in r;
    }
    forall k | k in Pairs(r) ensures k in Pairs(s) {
      var i :| 0 <= i < |r| && PairOf(r[i]) == k;
      assert s[i] in s;
    }
  }

  /** Lines 91 and 94 produce per-category totals. */
  lemma TotalsCorrect(rows: seq<Row>, val: Row -> int)
    ensures IsTotalByType(rows, InMillions(GroupTotals(rows, CategoryKey, val)), val)
  {
  }

  /** Lines 97-104 and 107-114: summing by (date, column), zero filling the cross product and
      scaling produce the dense pivot. */
  lemma PivotCorrect<K(!new)>(rows: seq<Row>, col: Row -> K, key: Row -> (Date, K))
    requires forall r :: key(r) == (r.date, col(r))
    ensures IsDensePivot(rows, col, InMillions(ZeroFill(GroupTotals(rows, key, Net), Dates(rows), Keys(rows, col))))
  {
    var sums := GroupTotals(rows, key, Net);
    var p := InMillions(ZeroFill(sums, Dates(rows), Keys(rows, col)));
    forall k | k in p
      ensures p[k] == Scale(SumOf(Where(Where(rows, DateKey, k.0), col, k.1), Net))
    {
      PivotCell(rows, col, key, k);
    }
  }

  /** One cell of the pivot: the group sum of its (date, column) key, or 0 for a key no row has. */
  lemma PivotCell<K(!new)>(rows: seq<Row>, col: Row -> K, key: Row -> (Date, K), k: (Date, K))
    requires forall r :: key(r) == (r.date, col(r))
    ensures (if k in GroupTotals(rows, key, Net) then GroupTotals(rows, key, Net)[k] else 0.0)
            == SumOf(Where(Where(rows, DateKey, k.0), col, k.1), Net) as real
  {
    var sums := GroupTotals(rows, key, Net);
    WherePair(rows, key, DateKey, col, k.0, k.1);
    if k !in sums {
      WhereUnobserved(rows, key, k);
    }
  }
}
