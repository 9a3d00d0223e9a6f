/** The stock comparison chart: a catalogue of top stocks ranked by the
    performance of the chosen period, a case-insensitive search over it, a
    watchlist of at most 50 stocks with distinct symbols, and the number of
    date labels each period's axis gets. */
module StockChart {
  import opened Prelude
  import opened Sorting

  datatype Stock = Stock(symbol: string, name: string, performance1Y: real,
                         performance5Y: real, performance10Y: real, sector: string)

  const MaxSelected: nat := 50

  const TopStocks: seq<Stock> := [
    Stock("AAPL", "Apple Inc.", 15.2, 18.5, 21.3, "Technology"),
    Stock("MSFT", "Microsoft Corp.", 12.8, 16.2, 19.8, "Technology"),
    Stock("NVDA", "NVIDIA Corp.", 45.6, 35.2, 28.7, "Technology"),
    Stock("GOOGL", "Alphabet Inc.", 8.9, 14.7, 17.2, "Technology"),
    Stock("AMZN", "Amazon.com Inc.", 6.5, 12.8, 18.9, "Consumer Discretionary"),
    Stock("TSLA", "Tesla Inc.", 25.3, 42.1, 35.6, "Consumer Discretionary"),
    Stock("META", "Meta Platforms", 18.7, 15.9, 22.4, "Technology"),
    Stock("BRK.B", "Berkshire Hathaway", 9.2, 11.8, 13.5, "Financial Services"),
    Stock("LLY", "Eli Lilly and Co.", 32.1, 28.9, 19.7, "Healthcare"),
    Stock("V", "Visa Inc.", 11.4, 13.6, 16.8, "Financial Services"),
    Stock("UNH", "UnitedHealth Group", 14.8, 17.2, 18.9, "Healthcare"),
    Stock("JNJ", "Johnson & Johnson", 5.3, 8.7, 12.1, "Healthcare"),
    Stock("JPM", "JPMorgan Chase", 13.2, 9.8, 14.6, "Financial Services"),
    Stock("PG", "Procter & Gamble", 7.9, 9.4, 11.8, "Consumer Staples"),
    Stock("XOM", "Exxon Mobil Corp.", 18.5, 8.2, 4.7, "Energy")
  ]

  /** `getPerformanceByPeriod`: any period other than 5Y or 10Y reads the 1Y figure. */
  function PerformanceByPeriod(stock: Stock, period: string): (r: real)
    ensures period == "5Y" ==> r == stock.performance5Y
    ensures period == "10Y" ==> r == stock.performance10Y
    ensures period != "5Y" && period != "10Y" ==> r == stock.performance1Y
  {
    if period == "1Y" then stock.performance1Y
    else if period == "5Y" then stock.performance5Y
    else if period == "10Y" then stock.performance10Y
    else stock.performance1Y
  }

  function PeriodKey(period: string): Stock -> real
  {
    (s: Stock) => PerformanceByPeriod(s, period)
  }

  /** A copy of `stocks`, best performer of the period first, cut to 50. */
  function Ranked(stocks: seq<Stock>, period: string): (r: seq<Stock>)
    ensures SortedDescBy(r, PeriodKey(period))
    ensures |stocks| <= MaxSelected ==> multiset(r) == multiset(stocks) && |r| == |stocks|
    ensures |r| <= MaxSelected
  {
    var sorted := SortDescBy(stocks, PeriodKey(period));
    TakeKeepsOrder(sorted, MaxSelected, PeriodKey(period));
    Take(sorted, MaxSelected)
  }

  lemma TakeKeepsOrder<T>(s: seq<T>, n: nat, key: T -> real)
    requires SortedDescBy(s, key)
    ensures SortedDescBy(Take(s, n), key)
  {
  }

  lemma TopStocksSize()
    ensures |TopStocks| == 15
  {
  }

  /** `getSortedStocks`: the whole catalogue, ranked; the catalogue itself is a
      constant and so stays as it is. */
  function SortedStocks(period: string): (r: seq<Stock>)
    ensures SortedDescBy(r, PeriodKey(period))
    ensures multiset(r) == multiset(TopStocks) && |r| == |TopStocks|
  {
    TopStocksSize();
    Ranked(TopStocks, period)
  }

  /** The search test: the lower-cased term occurs in the lower-cased name,
      symbol or sector. */
  predicate Matches(term: string, stock: Stock)
  {
    Contains(ToLower(stock.name), ToLower(term))
    || Contains(ToLower(stock.symbol), ToLower(term))
    || Contains(ToLower(stock.sector), ToLower(term))
  }

  function MatchesTerm(term: string): Stock -> bool
  {
    (s: Stock) => Matches(term, s)
  }

  /** The stocks of a ranking that match the search term, in ranking order. */
  function Search(ranked: seq<Stock>, period: string, term: string): (r: seq<Stock>)
    requires SortedDescBy(ranked, PeriodKey(period))
    ensures IsSubsequence(r, ranked)
    ensures SortedDescBy(r, PeriodKey(period))
    ensures forall i :: 0 <= i < |r| ==> Matches(term, r[i])
    ensures forall i :: 0 <= i < |ranked| && Matches(term, ranked[i]) ==> ranked[i] in r
  {
    FilterIsSubsequence(ranked, MatchesTerm(term));
    FilterKeepsOrder(ranked, MatchesTerm(term), PeriodKey(period));
    Filter(ranked, MatchesTerm(term))
  }

  /** `filteredStocks`: the ranked catalogue restricted to the matching stocks. */
  function FilteredStocks(period: string, term: string): (r: seq<Stock>)
    ensures IsSubsequence(r, SortedStocks(period))
    ensures SortedDescBy(r, PeriodKey(period))
    ensures forall i :: 0 <= i < |r| ==> Matches(term, r[i])
    ensures forall i :: 0 <= i < |TopStocks| && Matches(term, TopStocks[i]) ==> TopStocks[i] in r
  {
    SearchComplete(SortedStocks(period), TopStocks, period, term);
    Search(SortedStocks(period), period, term)
  }

  /** Searching a reordering of `all` finds every matching stock of `all`. */
  lemma SearchComplete(ranked: seq<Stock>, all: seq<Stock>, period: string, term: string)
    requires SortedDescBy(ranked, PeriodKey(period))
    requires multiset(ranked) == multiset(all)
    ensures forall i :: 0 <= i < |all| && Matches(term, all[i]) ==> all[i] in Search(ranked, period, term)
  {
    forall i | 0 <= i < |all| && Matches(term, all[i]) ensures all[i] in Search(ranked, period, term) {
      assert all[i] in multiset(all);
      assert all[i] in ranked;
    }
  }

  /** A subsequence of a ranking is ranked the same way. */
  lemma FilterKeepsOrder<T>(s: seq<T>, p: T -> bool, key: T -> real)
    requires SortedDescBy(s, key)
    ensures SortedDescBy(Filter(s, p), key)
  {
    var r := Filter(s, p);
    FilterIsSubsequence(s, p);
    forall i, j | 0 <= i < j < |r| ensures key(r[i]) >= key(r[j]) {
      SubsequenceIndices(r, s, i, j);
    }
  }

  /** An empty search keeps the whole ranking. */
  lemma EmptySearchKeepsAll(period: string)
    ensures FilteredStocks(period, "") == SortedStocks(period)
  {
    EmptySearchKeepsRanking(SortedStocks(period), period);
  }

  lemma EmptySearchKeepsRanking(ranked: seq<Stock>, period: string)
    requires SortedDescBy(ranked, PeriodKey(period))
    ensures Search(ranked, period, "") == ranked
  {
    forall i | 0 <= i < |ranked| ensures MatchesTerm("")(ranked[i]) {
      EmptyContained(ToLower(ranked[i].name));
    }
    FilterAll(ranked, MatchesTerm(""));
  }

  function Symbols(stocks: seq<Stock>): (r: seq<string>)
    ensures |r| == |stocks|
    ensures forall i :: 0 <= i < |stocks| ==> r[i] == stocks[i].symbol
  {
    seq(|stocks|, i requires 0 <= i < |stocks| => stocks[i].symbol)
  }

  /** The watchlist invariant: at most 50 stocks, no symbol twice. */
  predicate ValidSelection(selected: seq<Stock>)
  {
    |selected| <= MaxSelected && NoDuplicates(Symbols(selected))
  }

  /** The guard of `addStock`; the Add button is disabled exactly when it fails. */
  predicate CanAdd(selected: seq<Stock>, stock: Stock)
  {
    |selected| < MaxSelected && stock.symbol !in Symbols(selected)
  }

  /** The selection after `addStock`. */
  function Added(selected: seq<Stock>, stock: Stock): (r: seq<Stock>)
    ensures CanAdd(selected, stock) ==> r == selected + [stock]
    ensures !CanAdd(selected, stock) ==> r == selected
  {
    if CanAdd(selected, stock) then selected + [stock] else selected
  }

  function HasOtherSymbol(symbol: string): Stock -> bool
  {
    (s: Stock) => s.symbol != symbol
  }

  /** The selection after `removeStock`. */
  function Removed(selected: seq<Stock>, symbol: string): (r: seq<Stock>)
    ensures IsSubsequence(r, selected)
    ensures symbol !in Symbols(r)
    ensures forall i :: 0 <= i < |selected| && selected[i].symbol != symbol ==> selected[i] in r
  {
    FilterIsSubsequence(selected, HasOtherSymbol(symbol));
    Filter(selected, HasOtherSymbol(symbol))
  }

  /** Adding keeps the watchlist invariant. */
  lemma AddKeepsValid(selected: seq<Stock>, stock: Stock)
    requires ValidSelection(selected)
    ensures ValidSelection(Added(selected, stock))
  {
    if CanAdd(selected, stock) {
      assert Symbols(selected + [stock]) == Symbols(selected) + [stock.symbol];
    }
  }

  /** Removing keeps the watchlist invariant. */
  lemma RemoveKeepsValid(selected: seq<Stock>, symbol: string)
    requires ValidSelection(selected)
    ensures ValidSelection(Removed(selected, symbol))
  {
    var r := Removed(selected, symbol);
    forall i, j | 0 <= i < j < |r| ensures r[i].symbol != r[j].symbol {
      SubsequenceIndices(r, selected, i, j);
    }
  }

  /** Two positions of a subsequence come from two positions of the whole,
      in the same order. */
  lemma {:induction false} SubsequenceIndices<T>(a: seq<T>, b: seq<T>, i: int, j: int)
    requires IsSubsequence(a, b) && 0 <= i < j < |a|
    ensures exists i', j' :: 0 <= i' < j' < |b| && b[i'] == a[i] && b[j'] == a[j]
    decreases |b|
  {
    if a[0] == b[0] {
      if i == 0 {
        SubsequenceMember(a[1..], b[1..], j - 1);
        var j' :| 0 <= j' < |b[1..]| && b[1..][j'] == a[j];
        assert b[0] == a[0] && b[j' + 1] == a[j];
      } else {
        SubsequenceIndices(a[1..], b[1..], i - 1, j - 1);
        var i', j' :| 0 <= i' < j' < |b[1..]| && b[1..][i'] == a[1..][i - 1] && b[1..][j'] == a[1..][j - 1];
        assert b[i' + 1] == a[i] && b[j' + 1] == a[j];
      }
    } else {
      SubsequenceIndices(a, b[1..], i, j);
      var i', j' :| 0 <= i' < j' < |b[1..]| && b[1..][i'] == a[i] && b[1..][j'] == a[j];
      assert b[i' + 1] == a[i] && b[j' + 1] == a[j];
    }
  }

  lemma {:induction false} SubsequenceMember<T>(a: seq<T>, b: seq<T>, i: int)
    requires IsSubsequence(a, b) && 0 <= i < |a|
    ensures exists i' :: 0 <= i' < |b| && b[i'] == a[i]
    decreases |b|
  {
    if a[0] == b[0] {
      if i == 0 {
        assert b[0] == a[i];
      } else {
        SubsequenceMember(a[1..], b[1..], i - 1);
        var i' :| 0 <= i' < |b[1..]| && b[1..][i'] == a[1..][i - 1];
        assert b[i' + 1] == a[i];
      }
    } else {
      SubsequenceMember(a, b[1..], i);
      var i' :| 0 <= i' < |b[1..]| && b[1..][i'] == a[i];
      assert b[i' + 1] == a[i];
    }
  }

  /** Adding a stock that can be added and then removing its symbol gives
      back the watchlist as it was. */
  lemma AddThenRemove(selected: seq<Stock>, stock: Stock)
    requires CanAdd(selected, stock)
    ensures Removed(Added(selected, stock), stock.symbol) == selected
  {
    forall i | 0 <= i < |selected| ensures HasOtherSymbol(stock.symbol)(selected[i]) {
      assert Symbols(selected)[i] == selected[i].symbol;
    }
    FilterAppendRejected(selected, stock, HasOtherSymbol(stock.symbol));
  }

  lemma {:induction false} FilterAppendRejected<T>(s: seq<T>, x: T, p: T -> bool)
    requires forall i :: 0 <= i < |s| ==> p(s[i])
    requires !p(x)
    ensures Filter(s + [x], p) == s
  {
    if s == [] {
      assert [x][1..] == [];
    } else {
      assert (s + [x])[0] == s[0] && (s + [x])[1..] == s[1..] + [x];
      FilterAppendRejected(s[1..], x, p);
      assert [s[0]] + s[1..] == s;
    }
  }

  /** A point on the date axis, counted back from the current month. */
  datatype DateLabel = MonthsBack(months: nat) | YearsBack(years: nat)

  /** How far back the points of each period reach, oldest first. */
  function DateRange(period: string): (r: seq<DateLabel>)
    ensures period == "1Y" ==> |r| == 12
    ensures period == "5Y" ==> |r| == 20
    ensures period == "10Y" ==> |r| == 10
    ensures period !in {"1Y", "5Y", "10Y"} ==> r == []
  {
    if period == "1Y" then seq(12, k requires 0 <= k < 12 => MonthsBack(11 - k))
    else if period == "5Y" then seq(20, k requires 0 <= k < 20 => MonthsBack((19 - k) * 3))
    else if period == "10Y" then seq(10, k requires 0 <= k < 10 => YearsBack(9 - k))
    else []
  }

  function Offset(d: DateLabel): nat
  {
    match d
    case MonthsBack(m) => m
    case YearsBack(y) => 12 * y
  }

  /** The axis runs forwards in time and ends at the current month. */
  lemma DateRangeAscending(period: string)
    ensures var r := DateRange(period);
      (forall i, j :: 0 <= i < j < |r| ==> Offset(r[i]) > Offset(r[j]))
      && (r != [] ==> Offset(r[|r| - 1]) == 0)
  {
  }

  /** `generateDateRange`, with the loop counter running from the oldest point. */
  method GenerateDateRange(period: string) returns (dates: seq<DateLabel>)
    ensures dates == DateRange(period)
  {
    dates := [];
    if period == "1Y" {
      var i := 11;
      while i >= 0
        invariant -1 <= i <= 11
        invariant dates == DateRange(period)[..11 - i]
      {
        dates := dates + [MonthsBack(i)];
        i := i - 1;
      }
    } else if period == "5Y" {
      var i := 19;
      while i >= 0
        invariant -1 <= i <= 19
        invariant dates == DateRange(period)[..19 - i]
      {
        dates := dates + [MonthsBack(i * 3)];
        i := i - 1;
      }
    } else if period == "10Y" {
      var i := 9;
      while i >= 0
        invariant -1 <= i <= 9
        invariant dates == DateRange(period)[..9 - i]
      {
        dates := dates + [YearsBack(i)];
        i := i - 1;
      }
    }
  }

  /** The chart's interactive state. */
  class Chart {
    var selected: seq<Stock>
    var searchTerm: string
    var activePeriod: string

    constructor()
      ensures selected == [] && searchTerm == "" && activePeriod == "1Y"
      ensures ValidSelection(selected)
    {
      selected := [];
      searchTerm := "";
      activePeriod := "1Y";
    }

    /** The stocks listed under the search box. */
    function Listed(): seq<Stock>
      reads this
    {
      FilteredStocks(activePeriod, searchTerm)
    }

    /** The add button is disabled exactly when adding would change nothing. */
    function AddDisabled(stock: Stock): (r: bool)
      reads this
      ensures r <==> !CanAdd(selected, stock)
      ensures r <==> Added(selected, stock) == selected
    {
      assert |selected + [stock]| != |selected|;
      stock.symbol in Symbols(selected) || |selected| >= MaxSelected
    }

    method AddStock(stock: Stock)
      requires ValidSelection(selected)
      modifies this
      ensures selected == Added(old(selected), stock)
      ensures old(AddDisabled(stock)) <==> selected == old(selected)
      ensures ValidSelection(selected)
      ensures searchTerm == old(searchTerm) && activePeriod == old(activePeriod)
    {
      AddKeepsValid(selected, stock);
      selected := Added(selected, stock);
    }

    method RemoveStock(symbol: string)
      requires ValidSelection(selected)
      modifies this
      ensures selected == Removed(old(selected), symbol)
      ensures ValidSelection(selected)
      ensures searchTerm == old(searchTerm) && activePeriod == old(activePeriod)
    {
      RemoveKeepsValid(selected, symbol);
      selected := Removed(selected, symbol);
    }

    method SetSearchTerm(term: string)
      modifies this
      ensures searchTerm == term && selected == old(selected) && activePeriod == old(activePeriod)
    {
      searchTerm := term;
    }

    method SetActivePeriod(period: string)
      modifies this
      ensures activePeriod == period && selected == old(selected) && searchTerm == old(searchTerm)
    {
      activePeriod := period;
    }
  }
}
