/** The trade table of the dashboard: rows as the brokerage sheet holds them, rows as the
    dashboard keeps them after cleaning, the summary rows it derives, and the two table
    primitives every view is specified with: selecting the rows with a given key, and
    summing one amount over rows. */
module Table {

  /** A trade date. Parsing the sheet's date column is not modelled: a date is an opaque key. */
  type Date = int

  datatype Option<T> = None | Some(value: T)

  /** A categorical cell of the table: a text value, or absent (the table library's NaN). */
  datatype Cell = Null | Text(value: string) {
    function GetOr(default: string): string {
      match this
      case Text(s) => s
      case Null => default
    }
  }

  /** One trade row as exported, with the sheet's own column names. Amounts are always present. */
  datatype RawRow = RawRow(
    dtNegocio: Date,
    cdSetor: Cell,
    cdSubsetor: Cell,
    cdSegmento: Cell,
    conta: Cell,
    vlCompra: int,
    vlVenda: int,
    vlNet: int,
    vlTotal: int)

  /** One trade row under the dashboard's column names; the date is the table's index. */
  datatype Row = Row(
    date: Date,
    sector: Cell,
    subSector: Cell,
    segment: Cell,
    invType: Cell,
    buy: int,
    sell: int,
    net: int,
    total: int)

  /** One row of the sector summary: a (category, sector) pair and its net amount. */
  datatype SummaryRow = SummaryRow(invType: string, sector: string, net: real)

  function PairOf(e: SummaryRow): (string, string) { (e.invType, e.sector) }

  /** The (category, sector) pairs a summary holds. */
  function Pairs(s: seq<SummaryRow>): set<(string, string)> {
    set e | e in s :: PairOf(e)
  }

  /** The text of a categorical cell as a grouping label. */
  function Label(c: Cell): string { c.GetOr("") }

  // The grouping keys and the summed columns of the views.
  function DateKey(r: Row): Date { r.date }
  function CategoryKey(r: Row): string { Label(r.invType) }
  function SectorKey(r: Row): string { Label(r.sector) }
  function PairKey(r: Row): (string, string) { (CategoryKey(r), SectorKey(r)) }
  function DayCategoryKey(r: Row): (Date, string) { (r.date, CategoryKey(r)) }
  function DayPairKey(r: Row): (Date, (string, string)) { (r.date, PairKey(r)) }
  function Net(r: Row): int { r.net }
  function Total(r: Row): int { r.total }

  /** Amounts are shown in millions of the base currency. */
  function Scale(x: int): real { x as real / 1000000.0 }

  function Init<T>(s: seq<T>): seq<T>
    requires s != []
  {
    s[..|s| - 1]
  }

  function Last<T>(s: seq<T>): T
    requires s != []
  {
    s[|s| - 1]
  }

  predicate Distinct<K(==)>(ks: seq<K>) {
    forall i, j :: 0 <= i < j < |ks| ==> ks[i] != ks[j]
  }

  /** No two rows of a summary share a (category, sector) pair. */
  predicate DistinctPairs(s: seq<SummaryRow>) {
    forall i, j :: 0 <= i < j < |s| ==> PairOf(s[i]) != PairOf(s[j])
  }

  lemma DistinctPairsTail(s: seq<SummaryRow>)
    requires s != [] && DistinctPairs(s)
    ensures DistinctPairs(s[1..])
  {
    var tail := s[1..];
    forall i, j | 0 <= i < j < |tail| ensures PairOf(tail[i]) != PairOf(tail[j]) {
      assert tail[i] == s[i + 1] && tail[j] == s[j + 1];
    }
  }

  /** The distinct values that a key takes over the rows. */
  function Keys<K>(rows: seq<Row>, key: Row -> K): set<K> {
    set r | r in rows :: key(r)
  }

  function Dates(rows: seq<Row>): set<Date> {
    Keys(rows, DateKey)
  }

  /** The rows whose key equals k, in table order. */
  function Where<K(==)>(rows: seq<Row>, key: Row -> K, k: K): seq<Row> {
    if rows == [] then []
    else Where(Init(rows), key, k) + (if key(Last(rows)) == k then [Last(rows)] else [])
  }

  lemma WhereSnoc<K>(rows: seq<Row>, x: Row, key: Row -> K, k: K)
    ensures Where(rows + [x], key, k) == Where(rows, key, k) + (if key(x) == k then [x] else [])
  {
    assert Init(rows + [x]) == rows && Last(rows + [x]) == x;
  }

  /** A selection holds exactly the rows with the key, and no more rows than the table. */
  lemma {:induction false} WhereMembers<K>(rows: seq<Row>, key: Row -> K, k: K)
    ensures forall x :: x in Where(rows, key, k) <==> x in rows && key(x) == k
    ensures |Where(rows, key, k)| <= |rows|
  {
    if rows != [] {
      WhereMembers(Init(rows), key, k);
      assert rows == Init(rows) + [Last(rows)];
    }
  }

  /** The sum of one amount column over the rows. */
  function SumOf(rows: seq<Row>, val: Row -> int): int {
    if rows == [] then 0 else SumOf(Init(rows), val) + val(Last(rows))
  }

  /** Peeling the last row off a selection: the last row adds to the sum exactly when its key matches. */
  lemma {:induction false} SumWhereLast<K>(rows: seq<Row>, key: Row -> K, k: K, val: Row -> int)
    requires rows != []
    ensures SumOf(Where(rows, key, k), val)
            == SumOf(Where(Init(rows), key, k), val) + (if key(Last(rows)) == k then val(Last(rows)) else 0)
  {
    var w := Where(Init(rows), key, k);
    if key(Last(rows)) == k {
      assert Where(rows, key, k) == w + [Last(rows)];
      assert Init(w + [Last(rows)]) == w;
    } else {
      assert Where(rows, key, k) == w;
    }
  }

  /** A key value that no row has selects nothing. */
  lemma WhereUnobserved<K>(rows: seq<Row>, key: Row -> K, k: K)
    requires k !in Keys(rows, key)
    ensures Where(rows, key, k) == []
  {
    WhereMembers(rows, key, k);
  }

  /** Selecting on two keys is order-independent. */
  lemma {:induction false} WhereCommutes<A, B>(rows: seq<Row>, k1: Row -> A, a: A, k2: Row -> B, b: B)
    ensures Where(Where(rows, k1, a), k2, b) == Where(Where(rows, k2, b), k1, a)
  {
    if rows != [] {
      var s, x := Init(rows), Last(rows);
      assert rows == s + [x];
      WhereCommutes(s, k1, a, k2, b);
      var w1, w2 := Where(s, k1, a), Where(s, k2, b);
      WhereSnoc(s, x, k1, a);
      WhereSnoc(s, x, k2, b);
      if k1(x) == a {
        assert Where(rows, k1, a) == w1 + [x];
        WhereSnoc(w1, x, k2, b);
      } else {
        assert Where(rows, k1, a) == w1;
      }
      if k2(x) == b {
        assert Where(rows, k2, b) == w2 + [x];
        WhereSnoc(w2, x, k1, a);
      } else {
        assert Where(rows, k2, b) == w2;
      }
    }
  }

  /** Selecting on a pair key is selecting on each component in turn. */
  lemma {:induction false} WherePair<A, B>(rows: seq<Row>, key: Row -> (A, B), k1: Row -> A, k2: Row -> B, a: A, b: B)
    requires forall r :: key(r) == (k1(r), k2(r))
    ensures Where(rows, key, (a, b)) == Where(Where(rows, k1, a), k2, b)
  {
    if rows != [] {
      var s, x := Init(rows), Last(rows);
      assert rows == s + [x];
      WherePair(s, key, k1, k2, a, b);
      var w1 := Where(s, k1, a);
      WhereSnoc(s, x, key, (a, b));
      WhereSnoc(s, x, k1, a);
      if k1(x) == a {
        assert Where(rows, k1, a) == w1 + [x];
        WhereSnoc(w1, x, k2, b);
      } else {
        assert Where(rows, k1, a) == w1;
      }
    }
  }

  /** The sum of the per-key subtotals for the keys ks. */
  function SumGroups<K(==)>(rows: seq<Row>, key: Row -> K, ks: seq<K>, val: Row -> int): int {
    if ks == [] then 0 else SumOf(Where(rows, key, ks[0]), val) + SumGroups(rows, key, ks[1..], val)
  }

  lemma {:induction false} SumGroupsNoRows<K>(key: Row -> K, ks: seq<K>, val: Row -> int)
    ensures SumGroups([], key, ks, val) == 0
  {
    if ks != [] {
      SumGroupsNoRows(key, ks[1..], val);
    }
  }

  lemma DistinctTail<K>(ks: seq<K>)
    requires ks != [] && Distinct(ks)
    ensures Distinct(ks[1..]) && ks[0] !in ks[1..]
  {
    var tail := ks[1..];
    forall i, j | 0 <= i < j < |tail| ensures tail[i] != tail[j] {
      assert tail[i] == ks[i + 1] && tail[j] == ks[j + 1];
    }
    forall j | 0 <= j < |tail| ensures tail[j] != ks[0] {
      assert tail[j] == ks[j + 1];
    }
  }

  /** A new row adds its amount to the subtotal of its own key, if that key is listed, and to no other. */
  lemma {:induction false} SumGroupsAddRow<K>(rows: seq<Row>, r: Row, key: Row -> K, ks: seq<K>, val: Row -> int)
    requires Distinct(ks)
    ensures SumGroups(rows + [r], key, ks, val) == SumGroups(rows, key, ks, val) + (if key(r) in ks then val(r) else 0)
  {
    if ks != [] {
      var k, tail := ks[0], ks[1..];
      DistinctTail(ks);
      SumGroupsAddRow(rows, r, key, tail, val);
      assert Init(rows + [r]) == rows && Last(rows + [r]) == r;
      SumWhereLast(rows + [r], key, k, val);
      assert key(r) in ks <==> key(r) == k || key(r) in tail by {
        assert ks == [k] + tail;
      }
      assert SumGroups(rows + [r], key, ks, val) == SumOf(Where(rows + [r], key, k), val) + SumGroups(rows + [r], key, tail, val);
      assert SumGroups(rows, key, ks, val) == SumOf(Where(rows, key, k), val) + SumGroups(rows, key, tail, val);
    }
  }

  /** The subtotals over a list of distinct keys that covers every row add up to the grand total. */
  lemma {:induction false} Partition<K>(rows: seq<Row>, key: Row -> K, ks: seq<K>, val: Row -> int)
    requires Distinct(ks)
    requires forall r :: r in rows ==> key(r) in ks
    ensures SumGroups(rows, key, ks, val) == SumOf(rows, val)
  {
    if rows == [] {
      SumGroupsNoRows(key, ks, val);
    } else {
      var init := Init(rows);
      assert rows == init + [Last(rows)];
      Partition(init, key, ks, val);
      SumGroupsAddRow(init, Last(rows), key, ks, val);
    }
  }
}
