/** `consolidatedData`: the chart's points. The filtered dates are sampled
    every `interval`-th date counting back from the last one; at each sampled
    date every chain contributes its fee (DAY) or the sum of its fees over the
    trailing `interval` filtered dates (WEEK, MONTH), and points to which no
    chain contributes are dropped. */
module Resampler {
  import opened Wrappers
  import opened Seqs
  import opened Dataset

  datatype TimeFrame = Day | Week | Month

  /** `interval` (and, for WEEK and MONTH, `daysToSum`): how many filtered
      dates one chart point stands for. */
  function Interval(tf: TimeFrame): nat {
    match tf
    case Day => 1
    case Week => 7
    case Month => 30
  }

  /** The date at `index` is sampled: `(length - 1 - index) % interval === 0`. */
  predicate Kept(length: nat, index: nat, interval: nat)
    requires index < length && interval > 0
  {
    (length - 1 - index) % interval == 0
  }

  /** The sampled positions below `k`, in increasing order. */
  function SampleIndices(length: nat, interval: nat, k: nat): (r: seq<nat>)
    requires k <= length && interval > 0
    ensures forall j :: 0 <= j < |r| ==> r[j] < k
    ensures forall i: nat :: i in r <==> i < k && Kept(length, i, interval)
  {
    if k == 0 then []
    else SampleIndices(length, interval, k - 1) + (if Kept(length, k - 1, interval) then [k - 1] else [])
  }

  /** The sampled positions are strictly increasing. */
  lemma {:induction false} SampleIndicesIncreasing(length: nat, interval: nat, k: nat)
    requires k <= length && interval > 0
    ensures forall a, b :: 0 <= a < b < |SampleIndices(length, interval, k)| ==>
              SampleIndices(length, interval, k)[a] < SampleIndices(length, interval, k)[b]
  {
    if k > 0 {
      SampleIndicesIncreasing(length, interval, k - 1);
    }
  }

  /** The dates at the given positions. */
  function Pick(dates: seq<Date>, ks: seq<nat>): (r: seq<Date>)
    requires forall j :: 0 <= j < |ks| ==> ks[j] < |dates|
  {
    seq(|ks|, j requires 0 <= j < |ks| => dates[ks[j]])
  }

  /** `relevantDates`: the sampled filtered dates, in order. */
  function RelevantDates(filtered: seq<Date>, interval: nat): seq<Date>
    requires interval > 0
  {
    Pick(filtered, SampleIndices(|filtered|, interval, |filtered|))
  }

  /** One chart point: its date label and a fee per contributing chain. */
  datatype Point = Point(date: Date, fees: map<string, real>)

  /** `Object.keys(point).length > 1`: the point has a key besides `date`. */
  predicate HasData(p: Point) {
    |{"date"} + p.fees.Keys| > 1
  }

  /** What one chain contributes to the point at `date`: nothing when its own
      value there is missing or zero (`!values[date]`); its value for DAY; for
      WEEK and MONTH the sum over the `interval` filtered dates ending at the
      first position of `date`, and nothing when fewer dates precede it. */
  function Cell(filtered: seq<Date>, values: Series, date: Date, tf: TimeFrame): Option<real> {
    if ValueOrZero(values, date) == 0.0 then None
    else if tf == Day then Some(values[date])
    else
      var startIdx := IndexOf(filtered, date);
      if startIdx >= Interval(tf) - 1 then Some(TrailingSum(filtered, values, startIdx, Interval(tf)))
      else None
  }

  /** The chain fees of the point at `date`, after the entries have been
      visited in order. */
  function PointFees(filtered: seq<Date>, entries: seq<Entry>, date: Date, tf: TimeFrame): map<string, real> {
    if entries == [] then map[]
    else
      var fees := PointFees(filtered, entries[..|entries| - 1], date, tf);
      var e := entries[|entries| - 1];
      match Cell(filtered, e.values, date, tf)
      case None => fees
      case Some(v) => fees[e.chain := v]
  }

  function PointAt(filtered: seq<Date>, entries: seq<Entry>, date: Date, tf: TimeFrame): Point {
    Point(date, PointFees(filtered, entries, date, tf))
  }

  /** The points with data at the given dates, in order. */
  function PointsFor(filtered: seq<Date>, entries: seq<Entry>, tf: TimeFrame, dates: seq<Date>): seq<Point> {
    if dates == [] then []
    else
      var p := PointAt(filtered, entries, dates[|dates| - 1], tf);
      PointsFor(filtered, entries, tf, dates[..|dates| - 1]) + (if HasData(p) then [p] else [])
  }

  /** `consolidatedData` as a function of the filtered dates. */
  function Consolidated(filtered: seq<Date>, entries: seq<Entry>, tf: TimeFrame): seq<Point> {
    PointsFor(filtered, entries, tf, RelevantDates(filtered, Interval(tf)))
  }

  /** The `for` loop of the WEEK/MONTH branch: adds up the `daysToSum`
      values ending at `startIdx`, a missing value counting as 0. */
  method SumWindow(filtered: seq<Date>, values: Series, startIdx: nat, daysToSum: nat) returns (sum: real)
    requires daysToSum <= startIdx + 1 && startIdx < |filtered|
    ensures sum == TrailingSum(filtered, values, startIdx, daysToSum)
  {
    sum := 0.0;
    for i := 0 to daysToSum
      invariant sum == TrailingSum(filtered, values, startIdx, i)
    {
      var prevDate := filtered[startIdx - i];
      assert KeyAt(filtered, startIdx - i) == prevDate;
      sum := sum + ValueOrZero(values, prevDate);
    }
  }

  /** The `forEach` over the chains that fills one `dataPoint`. */
  method BuildPoint(filtered: seq<Date>, entries: seq<Entry>, date: Date, tf: TimeFrame) returns (p: Point)
    ensures p == PointAt(filtered, entries, date, tf)
  {
    var fees: map<string, real> := map[];
    for k := 0 to |entries|
      invariant fees == PointFees(filtered, entries[..k], date, tf)
    {
      assert entries[..k + 1][..k] == entries[..k];
      var chain, values := entries[k].chain, entries[k].values;
      if ValueOrZero(values, date) != 0.0 {
        var sum := values[date];
        var skip := false;
        if tf != Day {
          var daysToSum := if tf == Week then 7 else 30;
          var startIdx := IndexOf(filtered, date);
          if startIdx >= daysToSum - 1 {
            sum := SumWindow(filtered, values, startIdx, daysToSum);
          } else {
            skip := true;
          }
        }
        if !skip {
          fees := fees[chain := sum];
        }
      }
    }
    assert entries[..|entries|] == entries;
    p := Point(date, fees);
  }

  /** `filteredDates.filter((_, index) => ...)`: the sampled dates. */
  method SelectRelevantDates(filtered: seq<Date>, interval: nat) returns (relevant: seq<Date>)
    requires interval > 0
    ensures relevant == RelevantDates(filtered, interval)
  {
    relevant := [];
    for index := 0 to |filtered|
      invariant relevant == Pick(filtered, SampleIndices(|filtered|, interval, index))
    {
      if (|filtered| - 1 - index) % interval == 0 {
        relevant := relevant + [filtered[index]];
      }
    }
  }

  /** `consolidatedData`: sample the dates, build a point at each, and drop
      the points that have no key besides `date`. */
  method ConsolidatedData(filtered: seq<Date>, entries: seq<Entry>, tf: TimeFrame) returns (points: seq<Point>)
    ensures points == Consolidated(filtered, entries, tf)
  {
    var interval := if tf == Week then 7 else if tf == Month then 30 else 1;
    var relevant := SelectRelevantDates(filtered, interval);
    points := [];
    for j := 0 to |relevant|
      invariant points == PointsFor(filtered, entries, tf, relevant[..j])
    {
      assert relevant[..j + 1][..j] == relevant[..j];
      var dataPoint := BuildPoint(filtered, entries, relevant[j], tf);
      if |{"date"} + dataPoint.fees.Keys| > 1 {
        points := points + [dataPoint];
      }
    }
    assert relevant[..|relevant|] == relevant;
  }

  // ---------------------------------------------------------------------
  // Sampling

  /** The last filtered date is always sampled. */
  lemma LastDateSampled(filtered: seq<Date>, interval: nat)
    requires interval > 0 && |filtered| > 0
    ensures |RelevantDates(filtered, interval)| > 0
    ensures RelevantDates(filtered, interval)[|RelevantDates(filtered, interval)| - 1] == filtered[|filtered| - 1]
  {
    var n := |filtered|;
    assert Kept(n, n - 1, interval);
    assert SampleIndices(n, interval, n) == SampleIndices(n, interval, n - 1) + [n - 1];
  }

  lemma {:induction false} SampleIndicesEveryPosition(length: nat, k: nat)
    requires k <= length
    ensures |SampleIndices(length, 1, k)| == k
    ensures forall i :: 0 <= i < k ==> SampleIndices(length, 1, k)[i] == i
  {
    if k > 0 {
      SampleIndicesEveryPosition(length, k - 1);
      assert Kept(length, k - 1, 1);
    }
  }

  /** With interval 1 (DAY) every filtered date is sampled. */
  lemma DaySamplesEveryDate(filtered: seq<Date>)
    ensures RelevantDates(filtered, 1) == filtered
  {
    SampleIndicesEveryPosition(|filtered|, |filtered|);
  }

  lemma DivExact(x: int, interval: int)
    requires interval > 0 && x % interval == 0
    ensures x == (x / interval) * interval
  {
  }

  lemma DivExactRemainder(x: int, interval: int)
    requires interval > 0
    ensures x - x % interval == (x / interval) * interval
  {
  }

  lemma MulLess(a: int, b: int, interval: int)
    requires interval > 0 && a * interval < b * interval
    ensures a < b
  {
  }

  lemma MulSub(a: int, b: int, c: int)
    ensures a * c - b * c == (a - b) * c
  {
  }

  lemma MulAtLeast(q: int, interval: int)
    requires interval > 0 && q >= 1
    ensures q * interval >= interval
  {
    assert (q - 1) * interval >= 0;
    assert q * interval == (q - 1) * interval + interval;
  }

  lemma ModOfMultiple(q: int, interval: int)
    requires interval > 0
    ensures (q * interval) % interval == 0
  {
    var x := q * interval;
    var d, r := x / interval, x % interval;
    assert x == d * interval + r && 0 <= r < interval;
    MulSub(q, d, interval);
    if q - d >= 1 {
      MulAtLeast(q - d, interval);
    } else if q - d <= -1 {
      MulAtLeast(d - q, interval);
      MulSub(d, q, interval);
    }
  }

  /** Two multiples of `interval` lie at least `interval` apart, and
      stepping down by `interval` stays on a multiple. */
  lemma MultiplesGap(x: int, y: int, interval: int)
    requires interval > 0 && y < x && x % interval == 0 && y % interval == 0
    ensures x - y >= interval && (x - interval) % interval == 0
  {
    var qx, qy := x / interval, y / interval;
    DivExact(x, interval);
    DivExact(y, interval);
    MulLess(qy, qx, interval);
    MulSub(qx, qy, interval);
    MulAtLeast(qx - qy, interval);
    MulSub(qx, 1, interval);
    ModOfMultiple(qx - 1, interval);
  }

  /** Two sampled positions lie at least `interval` apart, and the position
      `interval` after a sampled one is sampled as well. */
  lemma SampledPositionsGap(length: nat, interval: nat, a: nat, b: nat)
    requires a < b < length && interval > 0 && Kept(length, a, interval) && Kept(length, b, interval)
    ensures b - a >= interval && Kept(length, a + interval, interval)
  {
    MultiplesGap(length - 1 - a, length - 1 - b, interval);
    assert length - 1 - (a + interval) == (length - 1 - a) - interval;
  }

  /** Consecutive sampled positions are exactly `interval` apart: the
      windows of consecutive WEEK or MONTH points are adjacent and disjoint. */
  lemma SampledPositionsSpacing(length: nat, interval: nat)
    requires interval > 0
    ensures forall j :: 0 <= j < |SampleIndices(length, interval, length)| - 1 ==>
              SampleIndices(length, interval, length)[j + 1] == SampleIndices(length, interval, length)[j] + interval
  {
    var ks := SampleIndices(length, interval, length);
    forall j | 0 <= j < |ks| - 1
      ensures ks[j + 1] == ks[j] + interval
    {
      SampledSuccessor(length, interval, ks, j);
    }
  }

  lemma SampledSuccessor(length: nat, interval: nat, ks: seq<nat>, j: nat)
    requires interval > 0 && ks == SampleIndices(length, interval, length) && j + 1 < |ks|
    ensures ks[j + 1] == ks[j] + interval
  {
    SampleIndicesIncreasing(length, interval, length);
    assert ks[j] in ks && ks[j + 1] in ks;
    SampledPositionsGap(length, interval, ks[j], ks[j + 1]);
    assert ks[j] + interval in ks;
    var m :| 0 <= m < |ks| && ks[m] == ks[j] + interval;
  }

  /** The remainder of the last position is itself a sampled position. */
  lemma LowestKept(length: nat, interval: nat)
    requires interval > 0 && length > 0
    ensures (length - 1) % interval < length && Kept(length, (length - 1) % interval, interval)
  {
    DivExactRemainder(length - 1, interval);
    ModOfMultiple((length - 1) / interval, interval);
  }

  /** The sampled positions run from below `interval` up to the last
      position. */
  lemma SampledPositionsEnds(length: nat, interval: nat)
    requires interval > 0 && length > 0
    ensures |SampleIndices(length, interval, length)| > 0
    ensures SampleIndices(length, interval, length)[|SampleIndices(length, interval, length)| - 1] == length - 1
    ensures SampleIndices(length, interval, length)[0] < interval
  {
    var ks := SampleIndices(length, interval, length);
    assert Kept(length, length - 1, interval);
    assert length - 1 in ks;
    var lowest := (length - 1) % interval;
    LowestKept(length, interval);
    SampleIndicesIncreasing(length, interval, length);
    assert lowest in ks;
    var m :| 0 <= m < |ks| && ks[m] == lowest;
    assert ks[0] <= ks[m];
  }

  // ---------------------------------------------------------------------
  // One chain at one point

  /** A chain contributes to a point only when its own value at that date is
      present and not zero; in DAY mode it contributes that value unchanged. */
  lemma CellNeedsOwnValue(filtered: seq<Date>, values: Series, date: Date, tf: TimeFrame)
    ensures Cell(filtered, values, date, tf).Some? ==> date in values && values[date] != 0.0
    ensures tf == Day ==>
              Cell(filtered, values, date, tf) == if date in values && values[date] != 0.0 then Some(values[date]) else None
  {
  }

  /** For WEEK and MONTH, at filtered position `s`, a chain contributes exactly
      when its value there is non-zero and `interval - 1` dates precede it,
      and then it contributes the sum of its values (missing as 0) over the
      `interval` filtered dates ending at `s`: never a partial sum. */
  lemma CellWindow(filtered: seq<Date>, values: Series, s: nat, tf: TimeFrame)
    requires tf != Day && Distinct(filtered) && s < |filtered|
    ensures Cell(filtered, values, filtered[s], tf).Some? <==>
              ValueOrZero(values, filtered[s]) != 0.0 && s >= Interval(tf) - 1
    ensures Cell(filtered, values, filtered[s], tf).Some? ==>
              Cell(filtered, values, filtered[s], tf).value == TrailingSum(filtered, values, s, Interval(tf))
  {
    IndexOfDistinct(filtered, s);
  }

  // ---------------------------------------------------------------------
  // One point

  /** Every key of a point's fees is the name of a chain. */
  lemma {:induction false} PointFeesKeys(filtered: seq<Date>, entries: seq<Entry>, date: Date, tf: TimeFrame)
    ensures forall c :: c in PointFees(filtered, entries, date, tf) ==> c in Names(entries)
  {
    if entries != [] {
      PointFeesKeys(filtered, entries[..|entries| - 1], date, tf);
      NamesSnoc(entries);
    }
  }

  /** A point holds the chain at `j` exactly when its Cell is defined, and
      then holds that Cell's value: a later chain never overwrites it. */
  lemma {:induction false} PointFeesAt(filtered: seq<Date>, entries: seq<Entry>, date: Date, tf: TimeFrame, j: nat)
    requires UniqueChains(entries) && j < |entries|
    ensures entries[j].chain in PointFees(filtered, entries, date, tf) <==>
              Cell(filtered, entries[j].values, date, tf).Some?
    ensures entries[j].chain in PointFees(filtered, entries, date, tf) ==>
              PointFees(filtered, entries, date, tf)[entries[j].chain] == Cell(filtered, entries[j].values, date, tf).value
  {
    var init := entries[..|entries| - 1];
    if j == |entries| - 1 {
      PointFeesKeys(filtered, init, date, tf);
      assert entries[j].chain !in Names(init) by {
        forall i | 0 <= i < |init|
          ensures Names(init)[i] != entries[j].chain
        {
          assert init[i] == entries[i];
        }
      }
    } else {
      assert UniqueChains(init) by {
        forall a, b | 0 <= a < b < |init|
          ensures init[a].chain != init[b].chain
        {
          assert init[a] == entries[a] && init[b] == entries[b];
        }
      }
      PointFeesAt(filtered, init, date, tf, j);
      assert init[j] == entries[j];
      assert entries[j].chain != entries[|entries| - 1].chain;
    }
  }

  /** A point is dropped exactly when no key besides `date` was added. */
  lemma HasDataIff(p: Point)
    ensures HasData(p) <==> exists c :: c in p.fees && c != "date"
  {
    if c :| c in p.fees && c != "date" {
      assert {"date", c} <= {"date"} + p.fees.Keys;
      assert |{"date", c}| == 2;
      SubsetCardinality({"date", c}, {"date"} + p.fees.Keys);
    } else {
      assert {"date"} + p.fees.Keys == {"date"};
    }
  }

  lemma SubsetCardinality<T>(a: set<T>, b: set<T>)
    requires a <= b
    ensures |a| <= |b|
  {
    assert b == a + (b - a);
  }

  // ---------------------------------------------------------------------
  // The whole series

  /** Every emitted point has data and is the point built at one of the
      given dates; every given date whose point has data is emitted. */
  lemma {:induction false} PointsForMembers(filtered: seq<Date>, entries: seq<Entry>, tf: TimeFrame, dates: seq<Date>)
    ensures forall p :: p in PointsFor(filtered, entries, tf, dates) ==>
              HasData(p) && p.date in dates && p == PointAt(filtered, entries, p.date, tf)
    ensures forall d :: d in dates && HasData(PointAt(filtered, entries, d, tf)) ==>
              PointAt(filtered, entries, d, tf) in PointsFor(filtered, entries, tf, dates)
  {
    if dates != [] {
      var init := dates[..|dates| - 1];
      PointsForMembers(filtered, entries, tf, init);
      assert dates == init + [dates[|dates| - 1]];
    }
  }

  /** Dates in increasing filtered position give points in increasing
      filtered position. */
  lemma {:induction false} PointsForOrder(filtered: seq<Date>, entries: seq<Entry>, tf: TimeFrame, dates: seq<Date>)
    requires forall a, b :: 0 <= a < b < |dates| ==> IndexOf(filtered, dates[a]) < IndexOf(filtered, dates[b])
    ensures forall a, b :: 0 <= a < b < |PointsFor(filtered, entries, tf, dates)| ==>
              IndexOf(filtered, PointsFor(filtered, entries, tf, dates)[a].date)
              < IndexOf(filtered, PointsFor(filtered, entries, tf, dates)[b].date)
  {
    if dates != [] {
      var init := dates[..|dates| - 1];
      var last := dates[|dates| - 1];
      PointsForOrder(filtered, entries, tf, init);
      PointsForMembers(filtered, entries, tf, init);
      var out := PointsFor(filtered, entries, tf, init);
      forall a | 0 <= a < |out|
        ensures IndexOf(filtered, out[a].date) < IndexOf(filtered, last)
      {
        assert out[a] in out;
        var m :| 0 <= m < |init| && init[m] == out[a].date;
      }
    }
  }

  /** The sampled dates appear in increasing filtered position. */
  lemma RelevantDatesIncreasing(filtered: seq<Date>, interval: nat)
    requires interval > 0 && Distinct(filtered)
    ensures forall a, b :: 0 <= a < b < |RelevantDates(filtered, interval)| ==>
              IndexOf(filtered, RelevantDates(filtered, interval)[a])
              < IndexOf(filtered, RelevantDates(filtered, interval)[b])
  {
    var ks := SampleIndices(|filtered|, interval, |filtered|);
    SampleIndicesIncreasing(|filtered|, interval, |filtered|);
    forall a | 0 <= a < |ks|
      ensures IndexOf(filtered, RelevantDates(filtered, interval)[a]) == ks[a]
    {
      IndexOfDistinct(filtered, ks[a]);
    }
  }

  /** The chart series: every point has a chain key, sits at a sampled
      filtered date and is the point built there; every sampled date whose
      point has data is present; and the points are in increasing date
      position. */
  lemma ConsolidatedSpec(filtered: seq<Date>, entries: seq<Entry>, tf: TimeFrame)
    requires Distinct(filtered)
    ensures forall p :: p in Consolidated(filtered, entries, tf) ==>
              HasData(p) && p == PointAt(filtered, entries, p.date, tf)
              && 0 <= IndexOf(filtered, p.date)
              && Kept(|filtered|, IndexOf(filtered, p.date), Interval(tf))
    ensures forall i :: (0 <= i < |filtered| && Kept(|filtered|, i, Interval(tf)) &&
                         HasData(PointAt(filtered, entries, filtered[i], tf))) ==>
              PointAt(filtered, entries, filtered[i], tf) in Consolidated(filtered, entries, tf)
    ensures forall a, b :: 0 <= a < b < |Consolidated(filtered, entries, tf)| ==>
              IndexOf(filtered, Consolidated(filtered, entries, tf)[a].date)
              < IndexOf(filtered, Consolidated(filtered, entries, tf)[b].date)
  {
    var interval := Interval(tf);
    var ks := SampleIndices(|filtered|, interval, |filtered|);
    var relevant := RelevantDates(filtered, interval);
    PointsForMembers(filtered, entries, tf, relevant);
    RelevantDatesIncreasing(filtered, interval);
    PointsForOrder(filtered, entries, tf, relevant);
    forall p | p in Consolidated(filtered, entries, tf)
      ensures 0 <= IndexOf(filtered, p.date) && Kept(|filtered|, IndexOf(filtered, p.date), interval)
    {
      var a :| 0 <= a < |relevant| && relevant[a] == p.date;
      IndexOfDistinct(filtered, ks[a]);
      assert ks[a] in ks;
    }
    forall i | 0 <= i < |filtered| && Kept(|filtered|, i, interval)
      ensures filtered[i] in relevant
    {
      assert i in ks;
      var a :| 0 <= a < |ks| && ks[a] == i;
      assert relevant[a] == filtered[i];
    }
  }

  /** What a chart point holds for each chain: only chains of the dataset; a
      chain is present exactly when its own value at the point's date is
      present and non-zero and, for WEEK and MONTH, a full window of
      `interval` filtered dates ends there; its fee is then its value (DAY)
      or its window total (WEEK, MONTH). */
  lemma ChartPointFees(filtered: seq<Date>, entries: seq<Entry>, tf: TimeFrame, p: Point, j: nat)
    requires Distinct(filtered) && UniqueChains(entries)
    requires p in Consolidated(filtered, entries, tf) && j < |entries|
    ensures forall c :: c in p.fees ==> c in Names(entries)
    ensures entries[j].chain in p.fees <==>
              ValueOrZero(entries[j].values, p.date) != 0.0 &&
              (tf == Day || IndexOf(filtered, p.date) >= Interval(tf) - 1)
    ensures entries[j].chain in p.fees ==>
              p.fees[entries[j].chain]
                == if tf == Day then entries[j].values[p.date]
                   else TrailingSum(filtered, entries[j].values, IndexOf(filtered, p.date), Interval(tf))
  {
    ConsolidatedSpec(filtered, entries, tf);
    PointFeesKeys(filtered, entries, p.date, tf);
    PointFeesAt(filtered, entries, p.date, tf, j);
    if tf != Day {
      CellWindow(filtered, entries[j].values, IndexOf(filtered, p.date), tf);
    }
  }
}
