/** The dataset the dashboard component receives: the ordered list of all
    dates, and for every chain a series mapping a date to that day's fee.
    This module also holds the two reading primitives every view shares:
    how a date string is compared, and how a (possibly missing) value is read
    and summed over a trailing window of dates. */
module Dataset {
  import opened Seqs

  /** A calendar day as an ISO `YYYY-MM-DD` string. */
  type Date = string

  /** One chain's fees by date; a missing key means "no recorded value". */
  type Series = map<Date, real>

  /** One entry of the enumeration of the chain map: a chain name and its
      series. A sequence of entries keeps the order in which the source object
      enumerates its keys. */
  datatype Entry = Entry(chain: string, values: Series)

  /** Object keys are unique: no chain name occurs twice. */
  predicate UniqueChains(entries: seq<Entry>) {
    forall i, j :: 0 <= i < j < |entries| ==> entries[i].chain != entries[j].chain
  }

  /** The chain names, in entry order (`.map(([chain]) => chain)`). */
  function Names(entries: seq<Entry>): seq<string> {
    seq(|entries|, i requires 0 <= i < |entries| => entries[i].chain)
  }

  /** The names of a longer enumeration extend the names of a shorter one. */
  lemma NamesSnoc(entries: seq<Entry>)
    requires entries != []
    ensures Names(entries) == Names(entries[..|entries| - 1]) + [entries[|entries| - 1].chain]
  {
  }

  /** Unique chains have distinct names. */
  lemma NamesDistinct(entries: seq<Entry>)
    requires UniqueChains(entries)
    ensures Distinct(Names(entries))
  {
  }

  /** Any part of the entries, in any order, still has unique names. */
  lemma UniqueChainsOfSubMultiset(a: seq<Entry>, b: seq<Entry>)
    requires multiset(a) <= multiset(b) && UniqueChains(b)
    ensures UniqueChains(a)
  {
    forall i, j | 0 <= i < j < |a|
      ensures a[i].chain != a[j].chain
    {
      if a[i].chain == a[j].chain {
        assert a[i] in multiset(b) && a[j] in multiset(b);
        var p :| 0 <= p < |b| && b[p] == a[i];
        var q :| 0 <= q < |b| && b[q] == a[j];
        assert p == q;
        RepeatCountsTwice(a, i, j);
        DistinctCountsAtMostOne(b, a[i]);
      }
    }
  }

  /** Fees are amounts: nothing recorded is negative. */
  predicate NonNegative(values: Series) {
    forall d :: d in values ==> values[d] >= 0.0
  }

  /** Reading a position outside an array yields `undefined`, and indexing an
      object with `undefined` looks up the property named "undefined". */
  const UndefinedKey: Date := "undefined"

  /** The property key that reading `dates[i]` produces. */
  function KeyAt(dates: seq<Date>, i: int): Date {
    if 0 <= i < |dates| then dates[i] else UndefinedKey
  }

  /** `values[key] || 0`: a missing value (and a zero) reads as 0. */
  function ValueOrZero(values: Series, key: Date): real {
    if key in values then values[key] else 0.0
  }

  /** The sum of `values[dates[end - k]] || 0` for `k` in `0 .. len - 1`:
      the `len` positions ending at `end`, walking backwards. */
  function TrailingSum(dates: seq<Date>, values: Series, end: int, len: nat): real {
    if len == 0 then 0.0
    else TrailingSum(dates, values, end, len - 1) + ValueOrZero(values, KeyAt(dates, end - (len - 1)))
  }

  /** A window of `a + b` positions is the window of its `a` most recent
      positions plus the window of the `b` positions just before them. */
  lemma {:induction false} TrailingSumSplit(dates: seq<Date>, values: Series, end: int, a: nat, b: nat)
    ensures TrailingSum(dates, values, end, a + b)
         == TrailingSum(dates, values, end, a) + TrailingSum(dates, values, end - a, b)
    decreases b
  {
    if b > 0 {
      TrailingSumSplit(dates, values, end, a, b - 1);
    }
  }

  /** With non-negative fees every window total is non-negative. */
  lemma {:induction false} TrailingSumNonNegative(dates: seq<Date>, values: Series, end: int, len: nat)
    requires NonNegative(values)
    ensures TrailingSum(dates, values, end, len) >= 0.0
  {
    if len > 0 {
      TrailingSumNonNegative(dates, values, end, len - 1);
    }
  }

  /** With non-negative fees a longer trailing window never sums to less. */
  lemma TrailingSumMonotone(dates: seq<Date>, values: Series, end: int, shorter: nat, longer: nat)
    requires NonNegative(values) && shorter <= longer
    ensures TrailingSum(dates, values, end, shorter) <= TrailingSum(dates, values, end, longer)
  {
    TrailingSumSplit(dates, values, end, shorter, longer - shorter);
    TrailingSumNonNegative(dates, values, end - shorter, longer - shorter);
  }

  /** Positions before the first date contribute nothing (as long as no
      series records a value under the key "undefined"). */
  lemma {:induction false} TrailingSumBeforeStart(dates: seq<Date>, values: Series, end: int, len: nat)
    requires UndefinedKey !in values && end < 0
    ensures TrailingSum(dates, values, end, len) == 0.0
  {
    if len > 0 {
      TrailingSumBeforeStart(dates, values, end, len - 1);
    }
  }

  /** A window reaching past the first date sums exactly the dates that exist:
      a short history is zero-filled rather than rejected. */
  lemma TrailingSumShortHistory(dates: seq<Date>, values: Series, end: int, len: nat)
    requires UndefinedKey !in values && 0 <= end + 1 <= len
    ensures TrailingSum(dates, values, end, len) == TrailingSum(dates, values, end, end + 1)
  {
    TrailingSumSplit(dates, values, end, end + 1, len - (end + 1));
    TrailingSumBeforeStart(dates, values, -1, len - (end + 1));
  }

  /** JavaScript's `<=` on strings: lexicographic by character code. */
  predicate LexLe(a: string, b: string)
    decreases |a|
  {
    |a| == 0 || (|b| > 0 && (a[0] < b[0] || (a[0] == b[0] && LexLe(a[1..], b[1..]))))
  }

  lemma {:induction false} LexLeReflexive(a: string)
    ensures LexLe(a, a)
    decreases |a|
  {
    if |a| > 0 {
      LexLeReflexive(a[1..]);
    }
  }

  lemma {:induction false} LexLeTransitive(a: string, b: string, c: string)
    requires LexLe(a, b) && LexLe(b, c)
    ensures LexLe(a, c)
    decreases |a|
  {
    if |a| > 0 && a[0] == b[0] && b[0] == c[0] {
      LexLeTransitive(a[1..], b[1..], c[1..]);
    }
  }

  lemma {:induction false} LexLeTotal(a: string, b: string)
    ensures LexLe(a, b) || LexLe(b, a)
    decreases |a|
  {
    if |a| > 0 && |b| > 0 && a[0] == b[0] {
      LexLeTotal(a[1..], b[1..]);
    }
  }

  lemma {:induction false} LexLeAntisymmetric(a: string, b: string)
    requires LexLe(a, b) && LexLe(b, a)
    ensures a == b
    decreases |a|
  {
    if |a| > 0 {
      LexLeAntisymmetric(a[1..], b[1..]);
      assert a == [a[0]] + a[1..] && b == [b[0]] + b[1..];
    }
  }
}
