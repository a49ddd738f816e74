/** The component's selection state — range buttons, custom date inputs, time
    frame buttons, search box and table headers — and the handlers that
    update it. The views read this state: the chart through the range filter
    and the resampler, the ranking through the search term, the table through
    the sort column and direction. */
module Controls {
  import opened Dataset
  import opened StableSort
  import opened RangeFilter
  import opened Resampler
  import opened Metrics
  import opened Seqs
  import Ranking

  /** The other direction. */
  function Flip(dir: Direction): Direction {
    if dir == Desc then Asc else Desc
  }

  /** The header click handler as a function of the current sort column and
      direction and the clicked column's key. */
  function HeaderClick(column: SortColumn, dir: Direction, key: SortColumn): (SortColumn, Direction) {
    if column == key then (column, Flip(dir)) else (key, Desc)
  }

  /** After a click the table is always sorted by the clicked column; the
      direction is `desc` unless the same column was clicked while `desc`. */
  lemma HeaderClickSelects(column: SortColumn, dir: Direction, key: SortColumn)
    ensures HeaderClick(column, dir, key).0 == key
    ensures HeaderClick(column, dir, key).1 == Desc <==> key != column || dir == Asc
  {
  }

  /** Clicking the current column twice restores the direction; clicking a
      new column twice sorts it ascending. */
  lemma HeaderClickTwice(column: SortColumn, dir: Direction, key: SortColumn)
    ensures var (c1, d1) := HeaderClick(column, dir, key);
            var (c2, d2) := HeaderClick(c1, d1, key);
            c2 == key && (if key == column then d2 == dir else d2 == Asc)
  {
  }

  class Controls {
    var dateRange: DateRange
    var timeFrame: TimeFrame
    var sortColumn: SortColumn
    var sortDirection: Direction
    var searchTerm: string
    var customStartDate: Date
    var customEndDate: Date

    /** A custom bound is only ever set while the MAX range is selected: the
        relative ranges are never combined with a custom date. */
    predicate Valid()
      reads this
    {
      (customStartDate != "" || customEndDate != "") ==> dateRange == Max
    }

    /** The initial selection: one year, daily points, sorted by the 1-day
        fee descending, no search term and no custom dates. */
    constructor ()
      ensures Valid()
      ensures dateRange == OneYear && timeFrame == Day
      ensures sortColumn == OneDay && sortDirection == Desc
      ensures searchTerm == "" && customStartDate == "" && customEndDate == ""
    {
      dateRange := OneYear;
      timeFrame := Day;
      sortColumn := OneDay;
      sortDirection := Desc;
      searchTerm := "";
      customStartDate := "";
      customEndDate := "";
    }

    /** A range button: selects the range and clears both custom dates. */
    method SelectRange(range: DateRange)
      modifies this
      ensures Valid()
      ensures dateRange == range && customStartDate == "" && customEndDate == ""
      ensures timeFrame == old(timeFrame) && searchTerm == old(searchTerm)
      ensures sortColumn == old(sortColumn) && sortDirection == old(sortDirection)
    {
      dateRange := range;
      customStartDate := "";
      customEndDate := "";
    }

    /** The start date input: stores the value and switches to MAX. */
    method ChangeCustomStart(value: Date)
      modifies this
      ensures Valid()
      ensures customStartDate == value && dateRange == Max && customEndDate == old(customEndDate)
      ensures timeFrame == old(timeFrame) && searchTerm == old(searchTerm)
      ensures sortColumn == old(sortColumn) && sortDirection == old(sortDirection)
    {
      customStartDate := value;
      dateRange := Max;
    }

    /** The end date input: stores the value and switches to MAX. */
    method ChangeCustomEnd(value: Date)
      modifies this
      ensures Valid()
      ensures customEndDate == value && dateRange == Max && customStartDate == old(customStartDate)
      ensures timeFrame == old(timeFrame) && searchTerm == old(searchTerm)
      ensures sortColumn == old(sortColumn) && sortDirection == old(sortDirection)
    {
      customEndDate := value;
      dateRange := Max;
    }

    /** A time frame button. */
    method SelectTimeFrame(tf: TimeFrame)
      requires Valid()
      modifies this
      ensures Valid()
      ensures timeFrame == tf
      ensures dateRange == old(dateRange) && customStartDate == old(customStartDate)
      ensures customEndDate == old(customEndDate) && searchTerm == old(searchTerm)
      ensures sortColumn == old(sortColumn) && sortDirection == old(sortDirection)
    {
      timeFrame := tf;
    }

    /** The search box. */
    method SetSearchTerm(term: string)
      requires Valid()
      modifies this
      ensures Valid()
      ensures searchTerm == term
      ensures dateRange == old(dateRange) && customStartDate == old(customStartDate)
      ensures customEndDate == old(customEndDate) && timeFrame == old(timeFrame)
      ensures sortColumn == old(sortColumn) && sortDirection == old(sortDirection)
    {
      searchTerm := term;
    }

    /** A table header click. */
    method ClickHeader(key: SortColumn)
      requires Valid()
      modifies this
      ensures Valid()
      ensures (sortColumn, sortDirection) == HeaderClick(old(sortColumn), old(sortDirection), key)
      ensures dateRange == old(dateRange) && customStartDate == old(customStartDate)
      ensures customEndDate == old(customEndDate) && timeFrame == old(timeFrame)
      ensures searchTerm == old(searchTerm)
    {
      if sortColumn == key {
        sortDirection := if sortDirection == Desc then Asc else Desc;
      } else {
        sortColumn := key;
        sortDirection := Desc;
      }
    }

    /** The dates the chart shows under the current selection. */
    function ChartDates(dates: seq<Date>, relativeStart: Date): seq<Date>
      reads this
    {
      FilteredDates(dates, dateRange, customStartDate, customEndDate, relativeStart)
    }

    /** The chart's points under the current range and time frame. */
    function ChartPoints(dates: seq<Date>, entries: seq<Entry>, relativeStart: Date): seq<Point>
      reads this
    {
      Consolidated(ChartDates(dates, relativeStart), entries, timeFrame)
    }

    /** The chart's lines under the current search term. */
    function ChartLines(dates: seq<Date>, entries: seq<Entry>): seq<string>
      reads this
    {
      Ranking.PlottedChains(Ranking.SortedChains(dates, entries, searchTerm))
    }

    /** For a dataset without repeated dates, the chart shows one point for
        every sampled date of the selected range that carries a fee, and no
        other point, in the order of the filtered dates. */
    lemma ChartFollowsSelection(dates: seq<Date>, entries: seq<Entry>, relativeStart: Date)
      requires Distinct(dates)
      ensures Distinct(ChartDates(dates, relativeStart))
      ensures forall p :: p in ChartPoints(dates, entries, relativeStart) ==>
                HasData(p) && p.date in ChartDates(dates, relativeStart)
                && p == PointAt(ChartDates(dates, relativeStart), entries, p.date, timeFrame)
                && Kept(|ChartDates(dates, relativeStart)|,
                        IndexOf(ChartDates(dates, relativeStart), p.date), Interval(timeFrame))
      ensures forall i :: 0 <= i < |ChartDates(dates, relativeStart)| &&
                          Kept(|ChartDates(dates, relativeStart)|, i, Interval(timeFrame)) &&
                          HasData(PointAt(ChartDates(dates, relativeStart), entries,
                                          ChartDates(dates, relativeStart)[i], timeFrame)) ==>
                PointAt(ChartDates(dates, relativeStart), entries, ChartDates(dates, relativeStart)[i], timeFrame)
                  in ChartPoints(dates, entries, relativeStart)
      ensures forall a, b :: 0 <= a < b < |ChartPoints(dates, entries, relativeStart)| ==>
                IndexOf(ChartDates(dates, relativeStart), ChartPoints(dates, entries, relativeStart)[a].date)
                < IndexOf(ChartDates(dates, relativeStart), ChartPoints(dates, entries, relativeStart)[b].date)
    {
      FilteredDatesDistinct(dates, dateRange, customStartDate, customEndDate, relativeStart);
      ConsolidatedSpec(ChartDates(dates, relativeStart), entries, timeFrame);
    }

    /** The chart draws the ten top-ranked matching chains, or all of them
        when fewer than ten match: distinct chains whose names match the
        current search term, none of them with a lower fee on the last date
        than a matching chain left off the chart. */
    lemma ChartLinesFollowSearch(dates: seq<Date>, entries: seq<Entry>)
      requires UniqueChains(entries)
      ensures |ChartLines(dates, entries)|
           == if |Filter(entries, Ranking.Matching(searchTerm))| <= 10
              then |Filter(entries, Ranking.Matching(searchTerm))| else 10
      ensures Distinct(ChartLines(dates, entries))
      ensures forall c :: c in ChartLines(dates, entries) ==>
                c in Names(entries) && Ranking.MatchesSearch(c, searchTerm)
      ensures forall d, u :: d in entries && u in entries && d.chain in ChartLines(dates, entries) &&
                             Ranking.MatchesSearch(u.chain, searchTerm) && u.chain !in ChartLines(dates, entries) ==>
                ValueOrZero(d.values, Ranking.LastDate(dates)) >= ValueOrZero(u.values, Ranking.LastDate(dates))
    {
      var sorted := Ranking.SortedChains(dates, entries, searchTerm);
      var lines := ChartLines(dates, entries);
      Ranking.SortedChainsSelects(dates, entries, searchTerm);
      Ranking.SortedChainsLength(dates, entries, searchTerm);
      assert lines == sorted[..|lines|];
      forall c | c in lines
        ensures c in sorted
      {
      }
      forall d, u | d in entries && u in entries && d.chain in lines &&
                    Ranking.MatchesSearch(u.chain, searchTerm) && u.chain !in lines
        ensures ValueOrZero(d.values, Ranking.LastDate(dates)) >= ValueOrZero(u.values, Ranking.LastDate(dates))
      {
        Ranking.TopRankedAbove(dates, entries, searchTerm, |lines|, d, u);
      }
    }

    /** The table under the current selection. */
    function Table(dates: seq<Date>, entries: seq<Entry>): seq<Row>
      reads this
    {
      ChainMetrics(dates, entries, sortColumn, sortDirection)
    }

    /** In a relative range (1M, 3M, 1Y) the chart shows exactly the dates
        from the computed start up to the last date of the dataset. */
    lemma RelativeRangeBounds(dates: seq<Date>, relativeStart: Date, d: Date)
      requires Valid() && dateRange != Max
      ensures d in ChartDates(dates, relativeStart) <==>
              d in dates && LexLe(relativeStart, d) && LexLe(d, KeyAt(dates, |dates| - 1))
    {
    }

    /** The table holds one row per chain and, when every row has a finite
        value in the selected column, lists them in the selected column and
        direction, rows with equal values keeping the chains' order. */
    lemma TableFollowsSelection(dates: seq<Date>, entries: seq<Entry>)
      requires Finite(Rows(dates, entries), ColumnKey(sortColumn))
      ensures multiset(Table(dates, entries)) == multiset(Rows(dates, entries))
      ensures forall i, j :: 0 <= i < j < |Table(dates, entries)| ==>
                InOrder(ColumnKey(sortColumn)(Table(dates, entries)[i]),
                        ColumnKey(sortColumn)(Table(dates, entries)[j]), sortDirection)
      ensures forall k :: WithKey(Table(dates, entries), ColumnKey(sortColumn), k)
                       == WithKey(Rows(dates, entries), ColumnKey(sortColumn), k)
    {
      ChainMetricsRows(dates, entries, sortColumn, sortDirection);
      ChangeColumnOrder(dates, entries, sortColumn, sortDirection);
    }

    /** In MAX with no custom date the chart shows every date from the first
        to the last: all of them when the dates ascend. */
    lemma MaxRangeShowsAll(dates: seq<Date>, relativeStart: Date)
      requires dateRange == Max && customStartDate == "" && customEndDate == ""
      requires Ascending(dates)
      ensures ChartDates(dates, relativeStart) == dates
    {
      MaxRangeKeepsAllDates(dates, relativeStart);
    }
  }
}
