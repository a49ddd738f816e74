# Chain fees dashboard: verified model of the data views

The dashboard gets a dataset from its API: an ordered list of ISO dates, and
for every chain a map from date to that day's fee. The component
`ChainFeesVisualization` turns the dataset into three views:

- a line chart of the ten top-ranked chains over a selected date range, with
  one point per day, per week or per month;
- a ranking of the chains that match a search box;
- a sortable table of 1-, 7- and 30-day fee totals and their percentage
  changes.

This project models the transformations behind those views, and the click
handlers that change the selection, in Dafny. It proves what each view
contains and in what order.

Modules, one per file:

- `Dataset` (`dataset.dfy`): the dataset as values.
  - A chain entry is `Entry(chain, values)`. A sequence of entries keeps the
    order in which `Object.entries` enumerates the chains.
  - Reading outside the date list gives JavaScript's `undefined`. Used as a
    key, `undefined` becomes the property "undefined" (`KeyAt`).
  - `values[d] || 0` is `ValueOrZero`.
  - `TrailingSum` sums those reads over a window of positions that ends at a
    given index.
  - String `<=` is `LexLe`.
- `RangeFilter` (`range_filter.dfy`): `filteredDates`.
- `Resampler` (`resampler.dfy`): `consolidatedData`.
  - As functions: `Consolidated`, `PointAt`, `Cell`.
  - As methods that mirror the source's loops and mutation, each proved equal
    to its function: `ConsolidatedData`, `BuildPoint`, `SelectRelevantDates`,
    `SumWindow`.
- `Ranking` (`ranking.dfy`): `sortedChains`, `getChainColor`, and the first
  ten chains the chart plots.
- `Metrics` (`metrics.dfy`): `chainMetrics`, the rows and their sort.
- `Controls` (`controls.dfy`): the selection state as a class.
  - Its fields are the `useState` variables.
  - Its methods are the range buttons, date inputs, time-frame buttons,
    search box and header clicks.
  - `Valid()` is the invariant that those methods keep.
- Supporting modules:
  - `StableSort` (`stable_sort.dfy`): `Array.prototype.sort`, which is stable
    since ES2019, as a stable insertion sort on optional numeric keys.
  - `Text` (`text.dfy`): `toLowerCase` and `includes`.
  - `Seqs` (`seqs.dfy`): `filter` and `indexOf`.
  - `Wrappers` (`wrappers.dfy`): `Option`.

Fees are `real`. A percentage change is `Option<real>`, where `None` stands
for the `NaN` or infinity the source computes when a denominator is zero or a
value is missing.

The chart's 1M, 3M and 1Y start dates come from JavaScript `Date`
arithmetic. The model takes that start date as the parameter `relativeStart`.

## Model

| member | source | states |
|---|---|---|
| RangeFilter.FilteredDates | src/components/ChainFeesVisualization.tsx:59-82 | The result is a subsequence of `dates`. A date is in it iff it is in `dates` and lies between the start bound and the end bound, both inclusive, by string comparison. Each date keeps its multiplicity. The end bound is the custom end, or else the last date. The start bound is the custom start, or else the first date for MAX, or else the relative start. |
| RangeFilter.MaxRangeKeepsAllDates | src/components/ChainFeesVisualization.tsx:60-81 | With MAX and no custom dates, an ascending date list comes back unchanged. |
| RangeFilter.StartAfterEndSelectsNothing | src/components/ChainFeesVisualization.tsx:81 | A start bound after the end bound selects no date. |
| RangeFilter.FilteredDatesDistinct | src/components/ChainFeesVisualization.tsx:59-81 | A dataset without repeated dates gives a filtered date list without repeated dates, for every range and custom date. |
| Dataset.LexLeReflexive | src/components/ChainFeesVisualization.tsx:81 | String `<=` holds between a string and itself, so a date equal to a bound is kept. |
| Dataset.LexLeTransitive | src/components/ChainFeesVisualization.tsx:81 | String `<=` is transitive. |
| Dataset.LexLeTotal | src/components/ChainFeesVisualization.tsx:81 | Any two strings are comparable by `<=`. |
| Dataset.LexLeAntisymmetric | src/components/ChainFeesVisualization.tsx:81 | Two strings that are each `<=` the other are equal. |
| Resampler.SampleIndices | src/components/ChainFeesVisualization.tsx:89-91 | Every sampled position is below the bound. A position is sampled iff `(length - 1 - index) % interval == 0`. |
| Resampler.SampleIndicesIncreasing | src/components/ChainFeesVisualization.tsx:89-91 | The sampled positions are strictly increasing, so `filter` keeps the dates' order. |
| Resampler.SelectRelevantDates | src/components/ChainFeesVisualization.tsx:86-91 | The `filter` over `filteredDates` returns exactly `RelevantDates`: the dates at the sampled positions, in order. |
| Resampler.LastDateSampled | src/components/ChainFeesVisualization.tsx:89-91 | When the filtered list is non-empty, the last filtered date is always sampled and is the last relevant date. |
| Resampler.DaySamplesEveryDate | src/components/ChainFeesVisualization.tsx:86-91 | With DAY (interval 1) every filtered date is sampled. |
| Resampler.SampleIndicesEveryPosition | src/components/ChainFeesVisualization.tsx:89-91 | With interval 1 there are `k` sampled positions below `k`, and the one at index `i` is `i`. |
| Resampler.SampledPositionsSpacing | src/components/ChainFeesVisualization.tsx:89-91 | Consecutive sampled positions are exactly `interval` apart. So the windows summed for consecutive WEEK or MONTH points are adjacent and disjoint. |
| Resampler.SampledPositionsEnds | src/components/ChainFeesVisualization.tsx:89-91 | The sampled positions run from a position below `interval` up to the last position. |
| Resampler.SampledPositionsGap | src/components/ChainFeesVisualization.tsx:90 | Two sampled positions are at least `interval` apart, and the position `interval` after a sampled one is also sampled. |
| Resampler.SumWindow | src/components/ChainFeesVisualization.tsx:105-109 | The `for` loop's `sum` equals the sum over `i < daysToSum` of the fee at `filteredDates[startIdx - i]`, a missing fee counting as 0. |
| Resampler.BuildPoint | src/components/ChainFeesVisualization.tsx:94-117 | The `forEach` that fills `dataPoint` produces `PointAt`: the point whose fees are what each chain's `Cell` contributes, visiting the chains in order. |
| Resampler.ConsolidatedData | src/components/ChainFeesVisualization.tsx:85-119 | The method returns `Consolidated`: the points built at the relevant dates, with the points that have no key besides `date` removed. |
| Resampler.CellNeedsOwnValue | src/components/ChainFeesVisualization.tsx:96-98 | A chain contributes to a point only if its own value at that date is present and non-zero. In DAY mode it contributes exactly that value. |
| Resampler.CellWindow | src/components/ChainFeesVisualization.tsx:99-113 | For a filtered list without repeated dates, for WEEK and MONTH at filtered position `s`, a chain contributes iff its value at `s` is non-zero and `s >= interval - 1`. It then contributes the full trailing sum of `interval` dates, never a partial one. |
| Resampler.PointFeesKeys | src/components/ChainFeesVisualization.tsx:95-116 | Every key a point receives, besides its date, is the name of a chain. |
| Resampler.PointFeesAt | src/components/ChainFeesVisualization.tsx:95-116 | With unique chain names, a chain is a key of a point iff its `Cell` is defined, and its fee is that `Cell`: no later chain overwrites it. |
| Resampler.HasDataIff | src/components/ChainFeesVisualization.tsx:118 | `Object.keys(point).length > 1` holds iff the point has a key other than `date`. |
| Resampler.PointsForMembers | src/components/ChainFeesVisualization.tsx:93-118 | Every emitted point has data and is the point built at one of the given dates. Every given date whose point has data is emitted. |
| Resampler.PointsForOrder | src/components/ChainFeesVisualization.tsx:93-118 | `map` then `filter` keeps the order of the dates. |
| Resampler.RelevantDatesIncreasing | src/components/ChainFeesVisualization.tsx:89-91 | For a filtered list without repeated dates, the relevant dates are in increasing filtered position. |
| Resampler.ConsolidatedSpec | src/components/ChainFeesVisualization.tsx:85-119 | For a filtered list without repeated dates, every chart point has data, sits at a sampled filtered date and is the point built there. Every sampled date whose point has data is present. The points are in the order of the filtered list. |
| Resampler.ChartPointFees | src/components/ChainFeesVisualization.tsx:94-118 | For a filtered list without repeated dates and unique chain names, within a chart point, a chain is present iff its own value is non-zero and, for WEEK and MONTH, a full window ends at that date. Its fee is then the day's value (DAY) or the window total (WEEK, MONTH). |
| Seqs.IndexOf | src/components/ChainFeesVisualization.tsx:101 | `indexOf` returns the first position holding the value, or -1 exactly when the value is absent. |
| Seqs.IndexOfDistinct | src/components/ChainFeesVisualization.tsx:101 | On a list without duplicates, `indexOf` of the element at `i` is `i`. |
| Seqs.Filter | src/components/ChainFeesVisualization.tsx:81 | `filter` returns a subsequence. An element is kept iff it satisfies the predicate, with its full multiplicity. |
| Dataset.TrailingSumSplit | src/components/ChainFeesVisualization.tsx:153-168 | A window of `a + b` positions is its `a` most recent positions plus the `b` positions just before them. |
| Dataset.TrailingSumNonNegative | src/components/ChainFeesVisualization.tsx:153-168 | With non-negative fees every window total is non-negative. |
| Dataset.TrailingSumMonotone | src/components/ChainFeesVisualization.tsx:153-158 | With non-negative fees a longer window never sums to less. |
| Dataset.TrailingSumBeforeStart | src/components/ChainFeesVisualization.tsx:161-168 | Positions before the first date contribute 0. |
| Dataset.TrailingSumShortHistory | src/components/ChainFeesVisualization.tsx:153-158 | A window that reaches past the first date sums exactly the dates that exist, zero-filling the rest. |
| Dataset.UniqueChainsOfSubMultiset | src/components/ChainFeesVisualization.tsx:124-127 | Filtering or reordering the entries keeps chain names unique. |
| Ranking.RankedEntriesMembers | src/components/ChainFeesVisualization.tsx:124-132 | The ranked entries are exactly the entries whose name matches the search. |
| Ranking.SortedChainsSelects | src/components/ChainFeesVisualization.tsx:122-134 | `sortedChains` lists a chain iff its lower-cased name contains the lower-cased search term, each chain once. |
| Ranking.SortedChainsHas | src/components/ChainFeesVisualization.tsx:122-134 | A chain name is in `sortedChains` iff it is the name of an entry and it matches the search. |
| Ranking.RankedUnique | src/components/ChainFeesVisualization.tsx:124-132 | Filtering and sorting never duplicate a chain. |
| Dataset.NamesDistinct | src/components/ChainFeesVisualization.tsx:133 | Entries with unique chains give a list of distinct names. |
| Ranking.EmptySearchKeepsAll | src/components/ChainFeesVisualization.tsx:125-127 | An empty search term keeps every chain. |
| Ranking.RankedOrder | src/components/ChainFeesVisualization.tsx:128-132 | Chains are in non-increasing order of their fee on the last date, a missing fee counting as 0. Chains with equal fees keep their enumeration order. |
| Ranking.SortedChainsLength | src/components/ChainFeesVisualization.tsx:122-132 | The ranking lists one name per matching entry: filtering, sorting and mapping to names keep the count of matching entries. |
| Ranking.TopRankedAbove | src/components/ChainFeesVisualization.tsx:122-132 | With unique chain names, a chain among the first `n` ranked has a last-date fee (missing counting as 0) at least that of every matching chain outside the first `n`. |
| Ranking.MissingFeeRanksBelow | src/components/ChainFeesVisualization.tsx:129-131 | A chain with no fee on the last date is ranked after every chain with a positive fee there. |
| Ranking.SearchExample | src/components/ChainFeesVisualization.tsx:126 | "eth" matches "Ethereum" and "Arbeth" but not "Solana". |
| Ranking.ChainColorsOfPlottedLinesDiffer | src/components/ChainFeesVisualization.tsx:137-143 | Colours repeat with period ten, and the at most ten plotted lines all get different colours. |
| Text.Lower | src/components/ChainFeesVisualization.tsx:126 | `toLowerCase` keeps the length. Each capital `A`-`Z` becomes the small letter at the same place in the alphabet, every other character is kept, and no capital is left in the result. |
| Text.ContainsIffAt | src/components/ChainFeesVisualization.tsx:126 | `includes` holds iff the term is a prefix of some suffix of the name. |
| Text.NotContainsMissingFirst | src/components/ChainFeesVisualization.tsx:126 | A term whose first character does not occur in the name is not included in it. |
| Text.LowerIdempotent | src/components/ChainFeesVisualization.tsx:126 | Lower-casing twice is lower-casing once. |
| StableSort.Sort | src/components/ChainFeesVisualization.tsx:183-194 | The sort returns a permutation of its input. |
| StableSort.InsertPermutes | src/components/ChainFeesVisualization.tsx:183-194 | Inserting one element adds exactly that element. |
| StableSort.SortSorted | src/components/ChainFeesVisualization.tsx:128-132 | With finite keys the result is ordered by the comparator `b - a` (desc) or `a - b` (asc). |
| StableSort.SortStable | src/components/ChainFeesVisualization.tsx:183-194 | Elements with equal keys keep their relative order. |
| StableSort.InsertSorted | src/components/ChainFeesVisualization.tsx:183-194 | Inserting into a sorted list keeps it sorted. |
| StableSort.InsertStable | src/components/ChainFeesVisualization.tsx:183-194 | Insertion places the new element after every element with an equal key. |
| StableSort.SortOfSorted | src/components/ChainFeesVisualization.tsx:183-194 | Sorting a sorted list changes nothing. |
| StableSort.SortIdempotent | src/components/ChainFeesVisualization.tsx:183-194 | Sorting twice is sorting once. |
| StableSort.FiniteOfPermutation | src/components/ChainFeesVisualization.tsx:183-194 | Finite keys stay finite under a permutation. |
| Metrics.WindowChange | src/components/ChainFeesVisualization.tsx:171-172 | `((cur / prev) - 1) * 100` is finite iff the previous window total is not 0. |
| Metrics.WindowChangeInverse | src/components/ChainFeesVisualization.tsx:171-172 | A finite window change `c` satisfies `cur == prev * (1 + c/100)`. |
| Metrics.DayChange | src/components/ChainFeesVisualization.tsx:170 | The 1-day change is finite iff both days have a value and the prior one is not 0. Missing values are not zero-filled. |
| Metrics.DayChangeInverse | src/components/ChainFeesVisualization.tsx:170 | A finite 1-day change `c` satisfies `latest == prior * (1 + c/100)`. |
| Metrics.OneDayWindow | src/components/ChainFeesVisualization.tsx:151-155 | The 1-day fee is the last position, and the 7-day total is that fee plus the six positions before it. |
| Metrics.SevenDayWindows | src/components/ChainFeesVisualization.tsx:153-163 | The 7-day window and the previous one (positions 8-14 from the end) together cover exactly the last 14 positions. |
| Metrics.ThirtyDayWindows | src/components/ChainFeesVisualization.tsx:156-168 | The 30-day window and the previous one (positions 31-60 from the end) together cover exactly the last 60 positions. |
| Metrics.TotalsOrdered | src/components/ChainFeesVisualization.tsx:151-158 | With non-negative fees, 0 <= 1-day <= 7-day <= 30-day. |
| Metrics.ShortHistoryWeek | src/components/ChainFeesVisualization.tsx:153-171 | With at most 7 dates, the 7-day total is the sum over all dates and the 7-day change is never finite. |
| Metrics.ShortHistoryMonth | src/components/ChainFeesVisualization.tsx:156-172 | With at most 30 dates, the 30-day total is the sum over all dates and the 30-day change is never finite. |
| Metrics.ThreeDayExample | src/components/ChainFeesVisualization.tsx:147-182 | For fees 10, 20 and 30 on three days: the 1-day fee is 30 with a change of 50%, both totals are 60, and both window changes are not finite. |
| Metrics.ChainMetricsRows | src/components/ChainFeesVisualization.tsx:146-194 | For any column and direction, the table is a permutation of one row per chain entry. |
| Metrics.FeeColumnOrder | src/components/ChainFeesVisualization.tsx:183-194 | Sorted by a fee column, the rows are in descending order for `desc` and ascending order for `asc`. |
| Metrics.ChangeColumnOrder | src/components/ChainFeesVisualization.tsx:183-194 | When every row's value in the selected column is finite, the rows are ordered by that column, and rows with equal values keep their enumeration order. |
| Controls.HeaderClickSelects | src/components/ChainFeesVisualization.tsx:363-369 | After a header click the clicked column is selected. The direction is `desc` unless the already-selected column was clicked while descending, which turns it to `asc`. |
| Controls.HeaderClickTwice | src/components/ChainFeesVisualization.tsx:363-369 | Clicking the current column twice restores the direction. Clicking a new column twice sorts it ascending. |
| Controls.Controls.constructor | src/components/ChainFeesVisualization.tsx:50-57 | The initial state is 1Y, DAY, sort by `1D` descending, an empty search and no custom dates. |
| Controls.Controls.SelectRange | src/components/ChainFeesVisualization.tsx:224-228 | A range button sets the range, clears both custom dates, leaves the rest unchanged and establishes `Valid()`. |
| Controls.Controls.ChangeCustomStart | src/components/ChainFeesVisualization.tsx:243-246 | The start input stores its value and switches to MAX, leaving the rest unchanged. |
| Controls.Controls.ChangeCustomEnd | src/components/ChainFeesVisualization.tsx:253-256 | The end input stores its value and switches to MAX, leaving the rest unchanged. |
| Controls.Controls.SelectTimeFrame | src/components/ChainFeesVisualization.tsx:210 | A time-frame button sets the time frame only. |
| Controls.Controls.SetSearchTerm | src/components/ChainFeesVisualization.tsx:420 | The search box sets the search term only. |
| Controls.Controls.ClickHeader | src/components/ChainFeesVisualization.tsx:363-369 | A header click updates the sort column and direction as `HeaderClick` says, and nothing else. |
| Controls.Controls.RelativeRangeBounds | src/components/ChainFeesVisualization.tsx:59-81 | In a valid state with a relative range, the chart shows exactly the dates from the relative start to the last date of the dataset. |
| Controls.Controls.MaxRangeShowsAll | src/components/ChainFeesVisualization.tsx:59-81 | In MAX with no custom dates, the chart shows every date of an ascending dataset. |
| Controls.Controls.ChartFollowsSelection | src/components/ChainFeesVisualization.tsx:85-119 | For a dataset without repeated dates, under the current range and time frame the chart's dates have no repeats. The chart holds exactly the data-bearing points at the sampled dates of the selected range, each the point built at its date, in the order of the filtered list. |
| Controls.Controls.ChartLinesFollowSearch | src/components/ChainFeesVisualization.tsx:121-133 | With unique chain names, the chart draws `min(10, number of matching chains)` lines (`sortedChains.slice(0, 10)`, line 331). They are distinct chains whose names match the current search term, and none has a lower last-date fee than a matching chain left off the chart. |
| Controls.Controls.TableFollowsSelection | src/components/ChainFeesVisualization.tsx:146-195 | The table under the current `sortColumn` and `sortDirection` is a permutation of one row per chain. When every row's value in that column is finite, the rows are ordered by that column in that direction, and rows with equal values keep their enumeration order. |

## Left out

- The 1M/3M/1Y start date, lines 66-76, is a parameter. It is computed with `Date.setMonth` / `setFullYear` and `toISOString`, which depend on the calendar and the time zone. The `RangeError` that `toISOString` throws on an invalid date (an empty dataset in a relative range) is not modelled.
- Fees are exact `real`s. Floating-point rounding in the sums and ratios is not modelled.
- `NaN` and the infinities are all `None`. So the model cannot tell `Infinity` from `NaN`.
- StableSort.Sort: a `None` key never precedes another element. The real comparator on `NaN` or infinities (line 193) is inconsistent, and its order is implementation-defined. So the sort properties are stated only for finite keys.
- Text.Lower: only ASCII letters are case-mapped. Other Unicode case mappings are not modelled.
- Dataset.LexLe: strings are compared by `char` code. UTF-16 surrogate pairs are not treated specially.
- A chain literally named "date" would overwrite the point's date label at line 115. The model keeps the label and the fees apart.
- A series holding a value under the key "undefined" is modelled by `KeyAt` as written. The zero-fill lemmas assume there is no such key.
- Object key order is the order of the entry sequence. The model does not capture JavaScript's rule that integer-like keys come first.
- Chart rendering (recharts, JSX, CSS), the Chart/Table toggle `showTable`, and the `min`/`max` attributes of the date inputs (lines 247, 258-259) are left out.
- The heatmap intensity (line 441) and all `toLocaleString`/`toFixed` formatting (lines 297, 317, 386-404, 450) are presentation over floating point, and are left out.
- The page's API `fetch` and its loading and error state (`src/pages/index.tsx`) are I/O. The navigation bar and the type declarations have no behaviour. These are not part of this model.
