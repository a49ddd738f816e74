/** `chainMetrics`: the table view. For every chain, its fee on the last date,
    its 7- and 30-day trailing totals, and three percentage changes; the rows
    ordered by the column and direction the user selected. */
module Metrics {
  import opened Wrappers
  import opened Seqs
  import opened Dataset
  import opened StableSort

  /** The sortable columns `1D`, `7D`, `30D`, `1D%`, `7D%`, `30D%`. */
  datatype SortColumn = OneDay | SevenDay | ThirtyDay | OneDayPct | SevenDayPct | ThirtyDayPct

  /** One table row. A change is `None` where the source computes a
      non-finite number (`NaN` or an infinity). */
  datatype Row = Row(chain: string,
                     oneDayFees: real, sevenDayFees: real, thirtyDayFees: real,
                     oneDayChange: Option<real>, sevenDayChange: Option<real>, thirtyDayChange: Option<real>)

  /** `((cur / prev) - 1) * 100`, finite exactly when `prev` is not zero. */
  function WindowChange(cur: real, prev: real): (c: Option<real>)
    ensures c.Some? <==> prev != 0.0
  {
    if prev == 0.0 then None else Some((cur / prev - 1.0) * 100.0)
  }

  /** A finite window change is the growth that turns the previous total
      into the current one. */
  lemma WindowChangeInverse(cur: real, prev: real)
    requires WindowChange(cur, prev).Some?
    ensures cur == prev * (1.0 + WindowChange(cur, prev).value / 100.0)
  {
  }

  /** `((values[latest] - values[prior]) / values[prior]) * 100` with no
      zero-fill: a missing value makes the difference `NaN`, a zero prior
      value makes the quotient non-finite. */
  function DayChange(values: Series, latest: Date, prior: Date): (c: Option<real>)
    ensures c.Some? <==> latest in values && prior in values && values[prior] != 0.0
  {
    if latest in values && prior in values && values[prior] != 0.0
    then Some((values[latest] - values[prior]) / values[prior] * 100.0)
    else None
  }

  /** A finite day change is the growth that turns the prior day's value
      into the latest one. */
  lemma DayChangeInverse(values: Series, latest: Date, prior: Date)
    requires DayChange(values, latest, prior).Some?
    ensures values[latest] == values[prior] * (1.0 + DayChange(values, latest, prior).value / 100.0)
  {
  }

  /** The row of one chain. Position `k` from the end is `dates[n - k]`; a
      position before the first date reads the key "undefined". */
  function RowOf(dates: seq<Date>, e: Entry): Row {
    var n := |dates|;
    var v := e.values;
    Row(e.chain,
        ValueOrZero(v, KeyAt(dates, n - 1)), SevenDayFees(dates, v), ThirtyDayFees(dates, v),
        DayChange(v, KeyAt(dates, n - 1), KeyAt(dates, n - 2)),
        WindowChange(SevenDayFees(dates, v), PreviousSevenDayFees(dates, v)),
        WindowChange(ThirtyDayFees(dates, v), PreviousThirtyDayFees(dates, v)))
  }

  /** The last 7 positions. */
  function SevenDayFees(dates: seq<Date>, v: Series): real {
    TrailingSum(dates, v, |dates| - 1, 7)
  }

  /** The last 30 positions. */
  function ThirtyDayFees(dates: seq<Date>, v: Series): real {
    TrailingSum(dates, v, |dates| - 1, 30)
  }

  /** Positions 8 to 14 from the end. */
  function PreviousSevenDayFees(dates: seq<Date>, v: Series): real {
    TrailingSum(dates, v, |dates| - 8, 7)
  }

  /** Positions 31 to 60 from the end. */
  function PreviousThirtyDayFees(dates: seq<Date>, v: Series): real {
    TrailingSum(dates, v, |dates| - 31, 30)
  }

  /** The unsorted rows, one per entry, in enumeration order. */
  function Rows(dates: seq<Date>, entries: seq<Entry>): seq<Row> {
    seq(|entries|, i requires 0 <= i < |entries| => RowOf(dates, entries[i]))
  }

  /** The value the comparator reads for a column. */
  function ColumnKey(col: SortColumn): Row -> Option<real> {
    (r: Row) =>
      match col
      case OneDay => Some(r.oneDayFees)
      case SevenDay => Some(r.sevenDayFees)
      case ThirtyDay => Some(r.thirtyDayFees)
      case OneDayPct => r.oneDayChange
      case SevenDayPct => r.sevenDayChange
      case ThirtyDayPct => r.thirtyDayChange
  }

  /** `chainMetrics`: the rows, stably sorted by the selected column. */
  function ChainMetrics(dates: seq<Date>, entries: seq<Entry>, col: SortColumn, dir: Direction): seq<Row> {
    Sort(Rows(dates, entries), ColumnKey(col), dir)
  }

  /** The 1-day fee is the last position, which is also the first of the
      seven-day window. */
  lemma OneDayWindow(dates: seq<Date>, e: Entry)
    ensures RowOf(dates, e).oneDayFees == TrailingSum(dates, e.values, |dates| - 1, 1)
    ensures RowOf(dates, e).sevenDayFees
         == RowOf(dates, e).oneDayFees + TrailingSum(dates, e.values, |dates| - 2, 6)
  {
    TrailingSumSplit(dates, e.values, |dates| - 1, 1, 6);
  }

  /** The current and previous seven-day windows together cover the last 14
      positions with no gap and no overlap. */
  lemma SevenDayWindows(dates: seq<Date>, e: Entry)
    ensures TrailingSum(dates, e.values, |dates| - 1, 14)
         == RowOf(dates, e).sevenDayFees + PreviousSevenDayFees(dates, e.values)
  {
    TrailingSumSplit(dates, e.values, |dates| - 1, 7, 7);
  }

  /** The current and previous thirty-day windows together cover the last 60
      positions with no gap and no overlap. */
  lemma ThirtyDayWindows(dates: seq<Date>, e: Entry)
    ensures TrailingSum(dates, e.values, |dates| - 1, 60)
         == RowOf(dates, e).thirtyDayFees + PreviousThirtyDayFees(dates, e.values)
  {
    TrailingSumSplit(dates, e.values, |dates| - 1, 30, 30);
  }

  /** With non-negative fees the totals are ordered: 0 <= 1-day <= 7-day <=
      30-day. */
  lemma TotalsOrdered(dates: seq<Date>, e: Entry)
    requires NonNegative(e.values)
    ensures 0.0 <= RowOf(dates, e).oneDayFees <= RowOf(dates, e).sevenDayFees <= RowOf(dates, e).thirtyDayFees
  {
    var n, v := |dates|, e.values;
    OneDayWindow(dates, e);
    TrailingSumNonNegative(dates, v, n - 1, 1);
    TrailingSumMonotone(dates, v, n - 1, 1, 7);
    TrailingSumMonotone(dates, v, n - 1, 7, 30);
  }

  /** A dataset of at most seven dates: the 7-day total is the sum of every
      date (positions before the first date count as 0), the previous window
      is empty, and so the 7-day change is never finite. */
  lemma ShortHistoryWeek(dates: seq<Date>, e: Entry)
    requires UndefinedKey !in e.values && |dates| <= 7
    ensures RowOf(dates, e).sevenDayFees == TrailingSum(dates, e.values, |dates| - 1, |dates|)
    ensures RowOf(dates, e).sevenDayChange == None
  {
    var n, v := |dates|, e.values;
    TrailingSumShortHistory(dates, v, n - 1, 7);
    TrailingSumBeforeStart(dates, v, n - 8, 7);
  }

  /** The same for the 30-day window with at most thirty dates. */
  lemma ShortHistoryMonth(dates: seq<Date>, e: Entry)
    requires UndefinedKey !in e.values && |dates| <= 30
    ensures RowOf(dates, e).thirtyDayFees == TrailingSum(dates, e.values, |dates| - 1, |dates|)
    ensures RowOf(dates, e).thirtyDayChange == None
  {
    var n, v := |dates|, e.values;
    TrailingSumShortHistory(dates, v, n - 1, 30);
    TrailingSumBeforeStart(dates, v, n - 31, 30);
  }

  /** Three days of fees 10, 20, 30: the 1-day fee is 30, up 50% on the day
      before; both longer totals are 60, and with no earlier week the 7-day
      change is not a number. */
  lemma ThreeDayExample()
    ensures var dates := ["2024-01-01", "2024-01-02", "2024-01-03"];
            var e := Entry("Ethereum", map["2024-01-01" := 10.0, "2024-01-02" := 20.0, "2024-01-03" := 30.0]);
            var r := RowOf(dates, e);
            r.oneDayFees == 30.0 && r.oneDayChange == Some(50.0) &&
            r.sevenDayFees == 60.0 && r.thirtyDayFees == 60.0 &&
            r.sevenDayChange == None && r.thirtyDayChange == None
  {
    var dates := ["2024-01-01", "2024-01-02", "2024-01-03"];
    var e := Entry("Ethereum", map["2024-01-01" := 10.0, "2024-01-02" := 20.0, "2024-01-03" := 30.0]);
    assert UndefinedKey !in e.values;
    assert KeyAt(dates, 2) == "2024-01-03" && KeyAt(dates, 1) == "2024-01-02" && KeyAt(dates, 0) == "2024-01-01";
    assert TrailingSum(dates, e.values, 2, 1) == 30.0;
    assert TrailingSum(dates, e.values, 2, 2) == 50.0;
    assert TrailingSum(dates, e.values, 2, 3) == 60.0;
    ShortHistoryWeek(dates, e);
    ShortHistoryMonth(dates, e);
  }

  /** The table has one row per chain: a permutation of the rows of the
      entries, whatever the column and direction. */
  lemma ChainMetricsRows(dates: seq<Date>, entries: seq<Entry>, col: SortColumn, dir: Direction)
    ensures multiset(ChainMetrics(dates, entries, col, dir)) == multiset(Rows(dates, entries))
    ensures forall r :: r in ChainMetrics(dates, entries, col, dir) <==>
                        exists i :: 0 <= i < |entries| && r == RowOf(dates, entries[i])
  {
    var m := ChainMetrics(dates, entries, col, dir);
    var rows := Rows(dates, entries);
    forall r
      ensures r in m <==> exists i :: 0 <= i < |entries| && r == RowOf(dates, entries[i])
    {
      assert r in m <==> r in rows by {
        assert r in m <==> r in multiset(m);
        assert r in rows <==> r in multiset(rows);
      }
      RowsHas(dates, entries, r);
    }
  }

  lemma RowsHas(dates: seq<Date>, entries: seq<Entry>, r: Row)
    ensures r in Rows(dates, entries) <==> exists i :: 0 <= i < |entries| && r == RowOf(dates, entries[i])
  {
    var rows := Rows(dates, entries);
    if r in rows {
      var i :| 0 <= i < |rows| && rows[i] == r;
      assert r == RowOf(dates, entries[i]);
    }
    if exists i :: 0 <= i < |entries| && r == RowOf(dates, entries[i]) {
      var i :| 0 <= i < |entries| && r == RowOf(dates, entries[i]);
      assert rows[i] == r;
    }
  }

  /** `ka` and `kb` are both numbers, in the order of `dir`. */
  predicate InOrder(ka: Option<real>, kb: Option<real>, dir: Direction) {
    ka.Some? && kb.Some? && if dir == Desc then ka.value >= kb.value else ka.value <= kb.value
  }

  /** The fee columns are always numbers, so the rows come out ordered by the
      selected fee column: descending for `desc`, ascending for `asc`. */
  lemma FeeColumnOrder(dates: seq<Date>, entries: seq<Entry>, col: SortColumn, dir: Direction)
    requires col == OneDay || col == SevenDay || col == ThirtyDay
    ensures forall i, j :: 0 <= i < j < |ChainMetrics(dates, entries, col, dir)| ==>
              InOrder(ColumnKey(col)(ChainMetrics(dates, entries, col, dir)[i]),
                      ColumnKey(col)(ChainMetrics(dates, entries, col, dir)[j]), dir)
  {
    ChangeColumnOrder(dates, entries, col, dir);
  }

  /** When every row has a finite value in the selected column, the rows are
      ordered by it, and rows with equal values keep the enumeration order of
      the chains. */
  lemma ChangeColumnOrder(dates: seq<Date>, entries: seq<Entry>, col: SortColumn, dir: Direction)
    requires Finite(Rows(dates, entries), ColumnKey(col))
    ensures forall i, j :: 0 <= i < j < |ChainMetrics(dates, entries, col, dir)| ==>
              InOrder(ColumnKey(col)(ChainMetrics(dates, entries, col, dir)[i]),
                      ColumnKey(col)(ChainMetrics(dates, entries, col, dir)[j]), dir)
    ensures forall k :: WithKey(ChainMetrics(dates, entries, col, dir), ColumnKey(col), k)
                     == WithKey(Rows(dates, entries), ColumnKey(col), k)
  {
    var rows := Rows(dates, entries);
    var key := ColumnKey(col);
    var m := ChainMetrics(dates, entries, col, dir);
    SortSorted(rows, key, dir);
    FiniteOfPermutation(m, rows, key);
    forall k
      ensures WithKey(m, key, k) == WithKey(rows, key, k)
    {
      SortStable(rows, key, dir, k);
    }
  }
}
