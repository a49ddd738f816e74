/** The range selector: which of the dataset's dates the chart shows, given
    the range buttons (1M, 3M, 1Y, MAX) and the two custom date inputs. */
module RangeFilter {
  import opened Dataset
  import opened Seqs

  datatype DateRange = OneMonth | ThreeMonths | OneYear | Max

  /** Every date is ascending-or-equal to every later one. */
  predicate Ascending(dates: seq<Date>) {
    forall i, j :: 0 <= i < j < |dates| ==> LexLe(dates[i], dates[j])
  }

  predicate Between(start: Date, end: Date, d: Date) {
    LexLe(start, d) && LexLe(d, end)
  }

  /** The end bound: the custom end when one is set, else the last date. */
  function EndDate(dates: seq<Date>, customEnd: Date): Date {
    if customEnd != "" then customEnd else KeyAt(dates, |dates| - 1)
  }

  /** The start bound: the custom start when one is set; otherwise the first
      date for MAX, and for a relative range the date that the calendar
      subtraction from the end bound yields, given as `relativeStart`. */
  function StartDate(dates: seq<Date>, range: DateRange, customStart: Date, relativeStart: Date): Date {
    if customStart != "" then customStart
    else if range == Max then KeyAt(dates, 0)
    else relativeStart
  }

  /** The test `date >= startDate && date <= endDate`. */
  function InRange(start: Date, end: Date): Date -> bool {
    d => Between(start, end, d)
  }

  /** `filteredDates`: exactly the dates of the dataset between the start and
      end bounds (both inclusive), in their original order. */
  function FilteredDates(dates: seq<Date>, range: DateRange, customStart: Date, customEnd: Date,
                         relativeStart: Date): (r: seq<Date>)
    ensures Subsequence(r, dates)
    ensures forall d :: d in r <==>
      d in dates && Between(StartDate(dates, range, customStart, relativeStart), EndDate(dates, customEnd), d)
    ensures forall d ::
              multiset(r)[d] == if Between(StartDate(dates, range, customStart, relativeStart),
                                           EndDate(dates, customEnd), d)
                                then multiset(dates)[d] else 0
  {
    Filter(dates, InRange(StartDate(dates, range, customStart, relativeStart), EndDate(dates, customEnd)))
  }

  /** A dataset without repeated dates gives a filtered list without
      repeated dates, whatever the selection. */
  lemma FilteredDatesDistinct(dates: seq<Date>, range: DateRange, customStart: Date, customEnd: Date,
                              relativeStart: Date)
    requires Distinct(dates)
    ensures Distinct(FilteredDates(dates, range, customStart, customEnd, relativeStart))
  {
    var r := FilteredDates(dates, range, customStart, customEnd, relativeStart);
    forall i, j | 0 <= i < j < |r|
      ensures r[i] != r[j]
    {
      if r[i] == r[j] {
        RepeatCountsTwice(r, i, j);
        DistinctCountsAtMostOne(dates, r[i]);
      }
    }
  }

  /** With MAX and no custom bounds, an ascending date list comes back whole. */
  lemma MaxRangeKeepsAllDates(dates: seq<Date>, relativeStart: Date)
    requires Ascending(dates)
    ensures FilteredDates(dates, Max, "", "", relativeStart) == dates
  {
    if dates != [] {
      var first, last := dates[0], dates[|dates| - 1];
      forall i | 0 <= i < |dates|
        ensures Between(first, last, dates[i])
      {
        LexLeReflexive(dates[i]);
      }
      FilterKeepsAll(dates, InRange(first, last));
    }
  }

  /** A start bound after the end bound selects nothing. */
  lemma StartAfterEndSelectsNothing(dates: seq<Date>, range: DateRange, customStart: Date, customEnd: Date,
                                    relativeStart: Date)
    requires !LexLe(StartDate(dates, range, customStart, relativeStart), EndDate(dates, customEnd))
    ensures FilteredDates(dates, range, customStart, customEnd, relativeStart) == []
  {
    var start, end := StartDate(dates, range, customStart, relativeStart), EndDate(dates, customEnd);
    var r := FilteredDates(dates, range, customStart, customEnd, relativeStart);
    if r != [] {
      assert r[0] in r;
      LexLeTransitive(start, r[0], end);
    }
  }
}
