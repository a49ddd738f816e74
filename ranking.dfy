/** `sortedChains`: the chains whose name matches the search box, ranked by
    their fee on the most recent date; and `getChainColor`, which colours the
    first ten of them in the chart. */
module Ranking {
  import opened Wrappers
  import opened Seqs
  import opened Dataset
  import opened StableSort
  import opened Text

  /** `chain.toLowerCase().includes(searchTerm.toLowerCase())` */
  predicate MatchesSearch(chain: string, searchTerm: string) {
    Contains(Lower(chain), Lower(searchTerm))
  }

  function Matching(searchTerm: string): Entry -> bool {
    (e: Entry) => MatchesSearch(e.chain, searchTerm)
  }

  /** The ranking key `a[1][lastDate] || 0`. */
  function RankKey(lastDate: Date): Entry -> Option<real> {
    (e: Entry) => Some(ValueOrZero(e.values, lastDate))
  }

  /** The last date of the dataset (`dates[dates.length - 1]`). */
  function LastDate(dates: seq<Date>): Date {
    KeyAt(dates, |dates| - 1)
  }

  /** The matching entries, in ranking order. */
  function RankedEntries(dates: seq<Date>, entries: seq<Entry>, searchTerm: string): seq<Entry> {
    Sort(Filter(entries, Matching(searchTerm)), RankKey(LastDate(dates)), Desc)
  }

  /** `sortedChains`: the names of the matching chains, in ranking order. */
  function SortedChains(dates: seq<Date>, entries: seq<Entry>, searchTerm: string): seq<string> {
    Names(RankedEntries(dates, entries, searchTerm))
  }

  /** The ranked entries are exactly the matching entries. */
  lemma RankedEntriesMembers(dates: seq<Date>, entries: seq<Entry>, searchTerm: string, e: Entry)
    ensures e in RankedEntries(dates, entries, searchTerm) <==> e in entries && MatchesSearch(e.chain, searchTerm)
  {
    var matching := Filter(entries, Matching(searchTerm));
    assert multiset(RankedEntries(dates, entries, searchTerm)) == multiset(matching);
    assert e in matching <==> e in multiset(matching);
  }

  /** The ranking lists exactly the chains whose name contains the search
      term, ignoring case, each of them once. */
  lemma SortedChainsSelects(dates: seq<Date>, entries: seq<Entry>, searchTerm: string)
    requires UniqueChains(entries)
    ensures forall c :: c in SortedChains(dates, entries, searchTerm) <==>
                        c in Names(entries) && MatchesSearch(c, searchTerm)
    ensures Distinct(SortedChains(dates, entries, searchTerm))
  {
    forall c
      ensures c in SortedChains(dates, entries, searchTerm) <==> c in Names(entries) && MatchesSearch(c, searchTerm)
    {
      SortedChainsHas(dates, entries, searchTerm, c);
    }
    RankedUnique(dates, entries, searchTerm);
    NamesDistinct(RankedEntries(dates, entries, searchTerm));
  }

  /** No chain is ranked twice. */
  lemma RankedUnique(dates: seq<Date>, entries: seq<Entry>, searchTerm: string)
    requires UniqueChains(entries)
    ensures UniqueChains(RankedEntries(dates, entries, searchTerm))
  {
    var matching := Filter(entries, Matching(searchTerm));
    assert multiset(matching) <= multiset(entries) by {
      forall x
        ensures multiset(matching)[x] <= multiset(entries)[x]
      {
      }
    }
    UniqueChainsOfSubMultiset(RankedEntries(dates, entries, searchTerm), entries);
  }

  lemma SortedChainsHas(dates: seq<Date>, entries: seq<Entry>, searchTerm: string, c: string)
    ensures c in SortedChains(dates, entries, searchTerm) <==> c in Names(entries) && MatchesSearch(c, searchTerm)
  {
    var ranked := RankedEntries(dates, entries, searchTerm);
    var r := SortedChains(dates, entries, searchTerm);
    if c in r {
      var i :| 0 <= i < |r| && r[i] == c;
      RankedEntriesMembers(dates, entries, searchTerm, ranked[i]);
      var j :| 0 <= j < |entries| && entries[j] == ranked[i];
      assert Names(entries)[j] == c;
    }
    if c in Names(entries) && MatchesSearch(c, searchTerm) {
      var j :| 0 <= j < |entries| && Names(entries)[j] == c;
      RankedEntriesMembers(dates, entries, searchTerm, entries[j]);
      var i :| 0 <= i < |ranked| && ranked[i] == entries[j];
      assert r[i] == c;
    }
  }

  /** An empty search box keeps every chain. */
  lemma EmptySearchKeepsAll(dates: seq<Date>, entries: seq<Entry>)
    ensures multiset(RankedEntries(dates, entries, "")) == multiset(entries)
  {
    forall i | 0 <= i < |entries|
      ensures Matching("")(entries[i])
    {
      assert Lower("") == "";
    }
    FilterKeepsAll(entries, Matching(""));
  }

  /** Chains are ordered by non-increasing fee on the last date, a missing
      fee counting as 0; chains with equal fees keep the enumeration order. */
  lemma RankedOrder(dates: seq<Date>, entries: seq<Entry>, searchTerm: string, fee: real)
    ensures forall i, j :: 0 <= i < j < |RankedEntries(dates, entries, searchTerm)| ==>
              ValueOrZero(RankedEntries(dates, entries, searchTerm)[i].values, LastDate(dates))
              >= ValueOrZero(RankedEntries(dates, entries, searchTerm)[j].values, LastDate(dates))
    ensures WithKey(RankedEntries(dates, entries, searchTerm), RankKey(LastDate(dates)), Some(fee))
         == WithKey(Filter(entries, Matching(searchTerm)), RankKey(LastDate(dates)), Some(fee))
  {
    var matching := Filter(entries, Matching(searchTerm));
    var key := RankKey(LastDate(dates));
    SortSorted(matching, key, Desc);
    SortStable(matching, key, Desc, Some(fee));
  }

  /** The ranking lists one name per matching entry. */
  lemma SortedChainsLength(dates: seq<Date>, entries: seq<Entry>, searchTerm: string)
    ensures |SortedChains(dates, entries, searchTerm)| == |Filter(entries, Matching(searchTerm))|
  {
    assert multiset(RankedEntries(dates, entries, searchTerm)) == multiset(Filter(entries, Matching(searchTerm)));
  }

  /** A chain among the first `n` of the ranking has at least the last-date
      fee of every matching chain outside them. */
  lemma TopRankedAbove(dates: seq<Date>, entries: seq<Entry>, searchTerm: string, n: nat, d: Entry, u: Entry)
    requires UniqueChains(entries) && n <= |SortedChains(dates, entries, searchTerm)|
    requires d in entries && u in entries && MatchesSearch(u.chain, searchTerm)
    requires d.chain in SortedChains(dates, entries, searchTerm)[..n]
    requires u.chain !in SortedChains(dates, entries, searchTerm)[..n]
    ensures ValueOrZero(d.values, LastDate(dates)) >= ValueOrZero(u.values, LastDate(dates))
  {
    var ranked := RankedEntries(dates, entries, searchTerm);
    var top := SortedChains(dates, entries, searchTerm)[..n];
    var i :| 0 <= i < n && top[i] == d.chain;
    RankedEntriesMembers(dates, entries, searchTerm, ranked[i]);
    var p :| 0 <= p < |entries| && entries[p] == ranked[i];
    var q :| 0 <= q < |entries| && entries[q] == d;
    assert p == q;
    RankedEntriesMembers(dates, entries, searchTerm, u);
    var k :| 0 <= k < |ranked| && ranked[k] == u;
    assert forall m :: 0 <= m < n ==> ranked[m].chain == top[m] && top[m] in top;
    assert k >= n;
    RankedOrder(dates, entries, searchTerm, 0.0);
  }

  /** A chain with no fee on the last date is ranked below every chain that
      has a positive one. */
  lemma MissingFeeRanksBelow(dates: seq<Date>, entries: seq<Entry>, searchTerm: string, i: nat, j: nat)
    requires i < |RankedEntries(dates, entries, searchTerm)| && j < |RankedEntries(dates, entries, searchTerm)|
    requires LastDate(dates) !in RankedEntries(dates, entries, searchTerm)[i].values
    requires ValueOrZero(RankedEntries(dates, entries, searchTerm)[j].values, LastDate(dates)) > 0.0
    ensures j < i
  {
    RankedOrder(dates, entries, searchTerm, 0.0);
  }

  /** The search is case-insensitive: "eth" finds "Ethereum" and "Arbeth"
      but not "Solana". */
  lemma SearchExample()
    ensures MatchesSearch("Ethereum", "eth")
    ensures MatchesSearch("Arbeth", "eth")
    ensures !MatchesSearch("Solana", "eth")
  {
    assert Lower("eth") == "eth";
    assert MatchesSearch("Ethereum", "eth") by {
      assert Lower("Ethereum") == "ethereum";
    }
    assert MatchesSearch("Arbeth", "eth") by {
      assert Lower("Arbeth") == "arbeth";
      assert "arbeth"[3..] == "eth";
    }
    assert !MatchesSearch("Solana", "eth") by {
      assert Lower("Solana") == "solana";
      NotContainsMissingFirst("solana", "eth");
    }
  }

  /** The palette of `getChainColor`. */
  const Palette: seq<string> := ["#8884d8", "#82ca9d", "#ffc658", "#ff7300", "#0088fe",
                                 "#00C49F", "#FFBB28", "#FF8042", "#a4de6c", "#d0ed57"]

  /** `getChainColor(index)`: the palette entry at `index % 10`. */
  function ChainColor(index: nat): string {
    Palette[index % |Palette|]
  }

  /** The lines of the chart: the first ten ranked chains. */
  function PlottedChains(sortedChains: seq<string>): seq<string> {
    if |sortedChains| <= 10 then sortedChains else sortedChains[..10]
  }

  /** Colours repeat with period ten, and the (at most ten) plotted lines all
      get different colours. */
  lemma ChainColorsOfPlottedLinesDiffer(sortedChains: seq<string>, i: nat, j: nat)
    requires i < j < |PlottedChains(sortedChains)|
    ensures ChainColor(i) != ChainColor(j)
    ensures ChainColor(i + 10) == ChainColor(i)
  {
    assert Palette[0][1] == '8' && Palette[1][1] == '8' && Palette[2][1] == 'f' && Palette[3][1] == 'f';
    assert Palette[4][1] == '0' && Palette[5][1] == '0' && Palette[6][1] == 'F' && Palette[7][1] == 'F';
    assert Palette[8][1] == 'a' && Palette[9][1] == 'd';
    assert Palette[0][2] == '8' && Palette[1][2] == '2' && Palette[2][2] == 'f' && Palette[3][2] == 'f';
    assert Palette[4][2] == '0' && Palette[5][2] == '0' && Palette[6][2] == 'F' && Palette[7][2] == 'F';
    assert Palette[2][3] == 'c' && Palette[3][3] == '7';
    assert Palette[4][3] == '8' && Palette[5][3] == 'C';
    assert Palette[6][3] == 'B' && Palette[7][3] == '8';
  }
}
