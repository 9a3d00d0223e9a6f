/** The risk helpers of the advanced-analytics panel: the relative strength
    index, a state-dependent ("Markov chain") Monte Carlo price path with an RSI
    acceptance filter, Value-at-Risk with expected shortfall, and the risk
    matrix over a fixed list of UK stocks.

    The normal samples are an input (`z[m - 1]` for month `m`), `Math.sqrt(12)`
    is the parameter `rootTwelve`. Prices and returns on a path are `Number`s,
    where `None` is NaN: a path whose price reaches exactly 0 divides 0 by 0
    two months later and is NaN from then on, yet it still gets an RSI, a
    result record and an acceptance verdict, as in JavaScript. */
module AdvancedAnalytics {
  import opened Prelude
  import opened Sorting
  import opened MonteCarloSimulation

  datatype Stock = Stock(symbol: string, name: string, expectedReturn: real, volatility: real,
                         beta: real, marketCap: string)

  const TopStocks: seq<Stock> := [
    Stock("TSCO.L", "Tesco PLC", 8.5, 22.3, 0.75, "£24.8B"),
    Stock("BP.L", "BP PLC", 12.2, 28.7, 1.15, "£78.4B"),
    Stock("SHEL.L", "Shell PLC", 11.8, 26.4, 1.08, "£198.2B"),
    Stock("AZN.L", "AstraZeneca PLC", 9.7, 24.1, 0.68, "£182.7B"),
    Stock("ULVR.L", "Unilever PLC", 7.3, 18.9, 0.52, "£108.5B"),
    Stock("VOD.L", "Vodafone Group", 6.8, 25.6, 0.89, "£22.1B"),
    Stock("LLOY.L", "Lloyds Banking", 10.4, 31.2, 1.32, "£35.8B"),
    Stock("BARC.L", "Barclays PLC", 11.1, 29.8, 1.28, "£25.9B")
  ]

  /** Default look-back of `calculateRSI`. */
  const RsiPeriod: nat := 14
  /** Number of trailing prices handed to `calculateRSI`. */
  const RsiWindow: nat := 20
  /** Paths per stock of the selected-stock simulation and of the risk matrix. */
  const PanelSimulations: nat := 500
  const MatrixSimulations: nat := 100

  // ---------------------------------------------------------------------
  // Numbers that may be NaN

  /** A JavaScript number on a price path; `None` is NaN. A path never holds
      an infinity: its only division is by the previous price, and a zero
      price is followed by another zero or by NaN (`ZeroPriceStaysZero`), so
      a division by zero there is always 0/0. */
  type Number = Option<real>

  function Plus(a: Number, b: Number): Number
  {
    if a.Some? && b.Some? then Some(a.value + b.value) else None
  }

  function Minus(a: Number, b: Number): Number
  {
    if a.Some? && b.Some? then Some(a.value - b.value) else None
  }

  function Times(a: Number, b: Number): Number
  {
    if a.Some? && b.Some? then Some(a.value * b.value) else None
  }

  /** `Math.abs`. */
  function AbsOf(a: Number): Number
  {
    if a.Some? then Some(Abs(a.value)) else None
  }

  // ---------------------------------------------------------------------
  // Relative strength index

  /** `prices[i] - prices[i - 1]`. */
  function Change(prices: seq<Number>, i: nat): Number
    requires 1 <= i < |prices|
  {
    Minus(prices[i], prices[i - 1])
  }

  /** `change > 0`, which is false for NaN. */
  predicate Rises(change: Number)
  {
    change.Some? && change.value > 0.0
  }

  /** Sum of the positive changes at indices 1..i; a NaN change is not
      positive and adds nothing. */
  function Gains(prices: seq<Number>, i: nat): (g: real)
    requires i < |prices|
    ensures g >= 0.0
  {
    if i == 0 then 0.0
    else Gains(prices, i - 1) + (if Rises(Change(prices, i)) then Change(prices, i).value else 0.0)
  }

  /** Sum of `Math.abs(change)` over the changes at indices 1..i that do not
      rise. A NaN change lands in this branch and makes the sum NaN, so the sum
      is a number exactly when every change read is one. */
  function Losses(prices: seq<Number>, i: nat): (l: Number)
    requires i < |prices|
    ensures l.Some? ==> l.value >= 0.0
    ensures l.Some? <==> forall j :: 1 <= j <= i ==> Change(prices, j).Some?
  {
    if i == 0 then Some(0.0)
    else
      var c := Change(prices, i);
      Plus(Losses(prices, i - 1), if Rises(c) then Some(0.0) else AbsOf(c))
  }

  /** `100 - 100 / (1 + avgGain / (avgLoss || 0.01))`: a zero and a NaN
      average loss are both falsy and give way to 0.01. */
  function RsiFromAverages(avgGain: real, avgLoss: Number): (r: real)
    requires avgGain >= 0.0 && (avgLoss.Some? ==> avgLoss.value >= 0.0)
    ensures 0.0 <= r < 100.0
    ensures avgGain == 0.0 ==> r == 0.0
  {
    var divisor := if avgLoss.None? || avgLoss.value == 0.0 then 0.01 else avgLoss.value;
    var rs := avgGain / divisor;
    assert rs >= 0.0;
    assert 100.0 / (1.0 + rs) <= 100.0 by {
      assert 1.0 + rs >= 1.0;
    }
    100.0 - 100.0 / (1.0 + rs)
  }

  /** `losses / period`. */
  function AverageLoss(losses: Number, period: nat): (a: Number)
    requires period >= 1
  {
    if losses.Some? then Some(losses.value / period as real) else None
  }

  /** What `calculateRSI(prices, period)` returns. */
  function Rsi(prices: seq<Number>, period: nat): (r: real)
    requires period >= 1
    ensures |prices| < period + 1 ==> r == 50.0
    ensures 0.0 <= r < 100.0
  {
    if |prices| < period + 1 then 50.0
    else RsiFromAverages(Gains(prices, period) / period as real, AverageLoss(Losses(prices, period), period))
  }

  /** A NaN among the changes read counts as if there were no losses at all:
      the RSI is the one of the same gains over the 0.01 floor. */
  lemma NaNChangeIsNoLoss(prices: seq<Number>, period: nat, j: nat)
    requires period >= 1 && period + 1 <= |prices|
    requires 1 <= j <= period && Change(prices, j).None?
    ensures Rsi(prices, period) == RsiFromAverages(Gains(prices, period) / period as real, Some(0.0))
  {
  }

  /** Only the first `period + 1` prices matter: later prices are never read. */
  lemma {:induction false} GainsLossesOfPrefix(prices: seq<Number>, i: nat, n: nat)
    requires i < n <= |prices|
    ensures Gains(prices[..n], i) == Gains(prices, i)
    ensures Losses(prices[..n], i) == Losses(prices, i)
  {
    if i > 0 {
      GainsLossesOfPrefix(prices, i - 1, n);
      assert Change(prices[..n], i) == Change(prices, i);
    }
  }

  lemma RsiOfPrefix(prices: seq<Number>, period: nat)
    requires period >= 1 && period + 1 <= |prices|
    ensures Rsi(prices[..period + 1], period) == Rsi(prices, period)
  {
    GainsLossesOfPrefix(prices, period, period + 1);
  }

  /** A numeric price series that never falls has no losses, so its RSI is
      computed against the 0.01 floor and is 0 exactly when it is also flat. */
  lemma {:induction false} NonFallingHasNoLosses(prices: seq<Number>, i: nat)
    requires i < |prices|
    requires forall j :: 0 <= j < |prices| ==> prices[j].Some?
    requires forall j :: 1 <= j < |prices| ==> prices[j - 1].value <= prices[j].value
    ensures Losses(prices, i) == Some(0.0)
  {
    if i > 0 {
      NonFallingHasNoLosses(prices, i - 1);
    }
  }

  /** `calculateRSI`: accumulate gains and losses over the first `period` changes. */
  method CalculateRSI(prices: seq<Number>, period: nat) returns (rsi: real)
    requires period >= 1
    ensures rsi == Rsi(prices, period)
  {
    if |prices| < period + 1 {
      return 50.0;
    }
    var gains := 0.0;
    var losses: Number := Some(0.0);
    var i := 1;
    while i <= period
      invariant 1 <= i <= period + 1
      invariant gains == Gains(prices, i - 1)
      invariant losses == Losses(prices, i - 1)
    {
      var change := Minus(prices[i], prices[i - 1]);
      if change.Some? && change.value > 0.0 {
        gains := gains + change.value;
      } else {
        losses := Plus(losses, AbsOf(change));
      }
      i := i + 1;
    }
    var avgGain := gains / period as real;
    var avgLoss: Number := if losses.Some? then Some(losses.value / period as real) else None;
    var rs := avgGain / (if avgLoss.None? || avgLoss.value == 0.0 then 0.01 else avgLoss.value);
    rsi := 100.0 - 100.0 / (1.0 + rs);
  }

  // ---------------------------------------------------------------------
  // State-dependent price paths

  /** `priceHistory.slice(-n)`. */
  function TakeLast<T>(s: seq<T>, n: nat): (r: seq<T>)
    ensures |r| == if n < |s| then n else |s|
    ensures r == s[|s| - |r|..]
  {
    if n < |s| then s[|s| - n..] else s
  }

  /** The previous month's return `(h[m-1] - h[m-2]) / h[m-2]`, 0 in the first
      month. A zero divisor meets a zero difference, so the quotient is NaN. */
  function PrevReturn(history: seq<Number>, month: nat): Number
    requires 1 <= month <= |history|
  {
    if month == 1 then Some(0.0)
    else
      var d := Minus(history[month - 1], history[month - 2]);
      if d.None? || history[month - 2].value == 0.0 then None
      else Some(d.value / history[month - 2].value)
  }

  /** `1 + |prevReturn| * 0.5`: volatility only ever grows after a move. */
  function VolatilityAdjustment(prevReturn: real): (f: real)
    ensures f >= 1.0
    ensures prevReturn == 0.0 <==> f == 1.0
  {
    1.0 + Abs(prevReturn) * 0.5
  }

  /** `expectedReturn / 100 / 12 + adjustedVolatility * z0`; NaN after a NaN
      previous return. */
  function PathMonthlyReturn(stock: Stock, rootTwelve: real, prevReturn: Number, z: real): Number
    requires rootTwelve > 0.0
  {
    if prevReturn.None? then None
    else Some(stock.expectedReturn / 100.0 / 12.0
              + (stock.volatility / 100.0) * VolatilityAdjustment(prevReturn.value) / rootTwelve * z)
  }

  /** `price *= (1 + monthlyReturn)`. */
  function NextPrice(price: Number, monthlyReturn: Number): (r: Number)
    ensures r.Some? <==> price.Some? && monthlyReturn.Some?
    ensures price == Some(0.0) && monthlyReturn.Some? ==> r == Some(0.0)
    ensures monthlyReturn == Some(0.0) ==> r == price
  {
    Times(price, Plus(Some(1.0), monthlyReturn))
  }

  /** The price history after `m` months, starting from the normalised 100. */
  function PriceHistory(stock: Stock, rootTwelve: real, z: seq<real>, m: nat): (h: seq<Number>)
    requires rootTwelve > 0.0 && m <= |z|
    ensures |h| == m + 1 && h[0] == Some(100.0)
  {
    if m == 0 then [Some(100.0)]
    else
      var prior := PriceHistory(stock, rootTwelve, z, m - 1);
      prior + [NextPrice(prior[m - 1], PathMonthlyReturn(stock, rootTwelve, PrevReturn(prior, m), z[m - 1]))]
  }

  /** A longer simulation extends a shorter one: the first `n` months do not
      depend on how many follow. */
  lemma {:induction false} PriceHistoryPrefix(stock: Stock, rootTwelve: real, z: seq<real>, n: nat, m: nat)
    requires rootTwelve > 0.0 && n <= m <= |z|
    ensures PriceHistory(stock, rootTwelve, z, n) == PriceHistory(stock, rootTwelve, z, m)[..n + 1]
    decreases m
  {
    if n < m {
      PriceHistoryPrefix(stock, rootTwelve, z, n, m - 1);
      var h := PriceHistory(stock, rootTwelve, z, m);
      assert h[..m] == PriceHistory(stock, rootTwelve, z, m - 1);
      assert h[..n + 1] == h[..m][..n + 1];
    }
  }

  /** Price `k` of a path is one month's step from the prices before it. */
  lemma PriceAt(stock: Stock, rootTwelve: real, z: seq<real>, m: nat, k: nat)
    requires rootTwelve > 0.0 && 1 <= k <= m <= |z|
    ensures var h := PriceHistory(stock, rootTwelve, z, m);
      h[k] == NextPrice(h[k - 1], PathMonthlyReturn(stock, rootTwelve, PrevReturn(h, k), z[k - 1]))
  {
    PriceHistoryPrefix(stock, rootTwelve, z, k - 1, m);
    PriceHistoryPrefix(stock, rootTwelve, z, k, m);
    var h := PriceHistory(stock, rootTwelve, z, m);
    var prior := PriceHistory(stock, rootTwelve, z, k - 1);
    assert PrevReturn(prior, k) == PrevReturn(h, k);
  }

  /** A zero price is followed by another zero unless the next one is NaN, so
      the next month's return divides 0 by 0. */
  lemma ZeroPriceStaysZero(stock: Stock, rootTwelve: real, z: seq<real>, m: nat, k: nat)
    requires rootTwelve > 0.0 && k + 1 <= m <= |z|
    requires PriceHistory(stock, rootTwelve, z, m)[k] == Some(0.0)
    ensures PriceHistory(stock, rootTwelve, z, m)[k + 1].Some? ==> PriceHistory(stock, rootTwelve, z, m)[k + 1] == Some(0.0)
  {
    PriceAt(stock, rootTwelve, z, m, k + 1);
  }

  /** Once a path has turned NaN it stays NaN to the last month. */
  lemma {:induction false} NaNPersists(stock: Stock, rootTwelve: real, z: seq<real>, m: nat, j: nat, k: nat)
    requires rootTwelve > 0.0 && j <= k <= m <= |z|
    requires PriceHistory(stock, rootTwelve, z, m)[j].None?
    ensures PriceHistory(stock, rootTwelve, z, m)[k].None?
    decreases k
  {
    if j < k {
      NaNPersists(stock, rootTwelve, z, m, j, k - 1);
      PriceAt(stock, rootTwelve, z, m, k);
    }
  }

  /** The inner month loop of `runMCMCSimulation` for one path. */
  method SimulatePath(stock: Stock, months: nat, rootTwelve: real, z: seq<real>) returns (history: seq<Number>)
    requires rootTwelve > 0.0 && |z| == months
    ensures history == PriceHistory(stock, rootTwelve, z, months)
  {
    var price: Number := Some(100.0);
    history := [price];
    var month := 1;
    while month <= months
      invariant 1 <= month <= months + 1
      invariant history == PriceHistory(stock, rootTwelve, z, month - 1)
      invariant price == history[month - 1]
    {
      var prevReturn: Number := Some(0.0);
      if month > 1 {
        var diff := Minus(history[month - 1], history[month - 2]);
        if diff.None? || history[month - 2].value == 0.0 {
          prevReturn := None;
        } else {
          prevReturn := Some(diff.value / history[month - 2].value);
        }
      }
      var monthlyReturn := PathMonthlyReturn(stock, rootTwelve, prevReturn, z[month - 1]);
      price := Times(price, Plus(Some(1.0), monthlyReturn));
      history := history + [price];
      month := month + 1;
    }
  }

  datatype MCMCResult = MCMCResult(
    simulation: nat,
    finalPrice: Number,
    priceHistory: seq<Number>,
    rsi: real,
    totalReturn: Number,
    accepted: bool)

  /** The RSI band inside which a path is accepted. */
  predicate InRsiBand(rsi: real)
  {
    rsi > 30.0 && rsi < 70.0
  }

  /** `((price - 100) / 100) * 100`. */
  function TotalReturn(price: Number): Number
  {
    if price.Some? then Some(((price.value - 100.0) / 100.0) * 100.0) else None
  }

  /** The record `runMCMCSimulation` pushes for a path, from its history. */
  function ResultOf(simulation: nat, history: seq<Number>): (r: MCMCResult)
    requires |history| >= 1
    ensures r.finalPrice == history[|history| - 1] && r.priceHistory == history
    ensures r.totalReturn.Some? <==> r.finalPrice.Some?
    ensures r.totalReturn.Some? ==> r.totalReturn.value == r.finalPrice.value - 100.0
    ensures r.rsi == Rsi(TakeLast(history, RsiWindow), RsiPeriod)
    ensures r.accepted <==> 30.0 < r.rsi < 70.0
  {
    var price := history[|history| - 1];
    var rsi := Rsi(TakeLast(history, RsiWindow), RsiPeriod);
    MCMCResult(simulation, price, history, rsi, TotalReturn(price), InRsiBand(rsi))
  }

  /** The result of path `s`. Its total return is a number exactly when the
      whole path is, since NaN never leaves a path. */
  function PathOutcome(stock: Stock, months: nat, rootTwelve: real, z: seq<real>, s: nat): (o: MCMCResult)
    requires rootTwelve > 0.0 && |z| == months
    ensures o.simulation == s && o.priceHistory == PriceHistory(stock, rootTwelve, z, months)
    ensures o.totalReturn.Some? <==> forall k :: 0 <= k <= months ==> o.priceHistory[k].Some?
    ensures o.accepted <==> InRsiBand(o.rsi)
  {
    var h := PriceHistory(stock, rootTwelve, z, months);
    forall k | 0 <= k <= months && h[k].None? ensures h[months].None? {
      NaNPersists(stock, rootTwelve, z, months, k, months);
    }
    ResultOf(s, h)
  }

  /** A path can run through a zero price and still be accepted. With the
      first sample making the month's return exactly -1, the price is 0 after
      one month and after two, the third month divides 0 by 0, and the rest
      of the one-year path is NaN. Its last 20 prices are only 13, too few for
      the RSI, which is then the neutral 50. */
  lemma ZeroPricePathAccepted(stock: Stock, rootTwelve: real, z: seq<real>)
    requires rootTwelve > 0.0 && stock.volatility > 0.0 && |z| == 12
    requires z[0] == (-1.0 - stock.expectedReturn / 100.0 / 12.0) * rootTwelve / (stock.volatility / 100.0)
    ensures var o := PathOutcome(stock, 12, rootTwelve, z, 0);
      o.accepted && o.rsi == 50.0 && o.finalPrice.None? && o.totalReturn.None?
  {
    var h := PriceHistory(stock, rootTwelve, z, 12);
    var v, c := stock.volatility / 100.0, -1.0 - stock.expectedReturn / 100.0 / 12.0;
    assert v * VolatilityAdjustment(0.0) / rootTwelve * z[0] == c by {
      var a := v * 1.0 / rootTwelve;
      assert a * rootTwelve == v;
      assert z[0] * v == c * rootTwelve;
      assert (a * z[0]) * rootTwelve == c * rootTwelve by {
        calc {
          (a * z[0]) * rootTwelve;
          (a * rootTwelve) * z[0];
          z[0] * v;
        }
      }
    }
    assert stock.expectedReturn / 100.0 / 12.0 + c == -1.0;
    assert PathMonthlyReturn(stock, rootTwelve, Some(0.0), z[0]).value
           == stock.expectedReturn / 100.0 / 12.0 + v * VolatilityAdjustment(0.0) / rootTwelve * z[0];
    assert PathMonthlyReturn(stock, rootTwelve, Some(0.0), z[0]) == Some(-1.0);
    PriceAt(stock, rootTwelve, z, 12, 1);
    assert h[1] == Some(0.0);
    PriceAt(stock, rootTwelve, z, 12, 2);
    assert PrevReturn(h, 2).Some?;
    assert h[2] == Some(0.0);
    PriceAt(stock, rootTwelve, z, 12, 3);
    assert h[3].None?;
    NaNPersists(stock, rootTwelve, z, 12, 3, 12);
    assert TakeLast(h, RsiWindow) == h;
  }

  /** `runMCMCSimulation(stock, simulations)`. */
  method RunMCMCSimulation(stock: Stock, years: nat, rootTwelve: real, simulations: nat, zs: seq<seq<real>>)
    returns (results: seq<MCMCResult>)
    requires rootTwelve > 0.0 && |zs| == simulations
    requires forall s :: 0 <= s < |zs| ==> |zs[s]| == years * 12
    ensures |results| == simulations
    ensures forall s :: 0 <= s < simulations ==> results[s] == PathOutcome(stock, years * 12, rootTwelve, zs[s], s)
  {
    ghost var expected := seq(simulations, s requires 0 <= s < simulations =>
      PathOutcome(stock, years * 12, rootTwelve, zs[s], s));
    results := [];
    var sim := 0;
    while sim < simulations
      invariant 0 <= sim <= simulations && results == expected[..sim]
    {
      var priceHistory := SimulatePath(stock, years * 12, rootTwelve, zs[sim]);
      var price := priceHistory[|priceHistory| - 1];
      var rsi := CalculateRSI(TakeLast(priceHistory, RsiWindow), RsiPeriod);
      var totalReturn: Number := if price.Some? then Some(((price.value - 100.0) / 100.0) * 100.0) else None;
      var result := MCMCResult(sim, price, priceHistory, rsi, totalReturn, rsi > 30.0 && rsi < 70.0);
      assert result == expected[sim];
      SnocPrefix(expected, sim, result);
      results := results + [result];
      sim := sim + 1;
    }
    assert results == expected;
  }

  /** `r => r.accepted`. */
  predicate Accepted(r: MCMCResult)
  {
    r.accepted
  }

  /** `mcmcResults.filter(r => r.accepted)`. */
  function FilteredResults(results: seq<MCMCResult>): (r: seq<MCMCResult>)
    ensures |r| <= |results|
    ensures forall i :: 0 <= i < |r| ==> Accepted(r[i]) && r[i] in results
    ensures forall i :: 0 <= i < |results| && Accepted(results[i]) ==> results[i] in r
  {
    Filter(results, Accepted)
  }

  /** The filtered paths keep their order. */
  lemma FilteredIsSubsequence(results: seq<MCMCResult>)
    ensures IsSubsequence(FilteredResults(results), results)
  {
    FilterIsSubsequence(results, Accepted);
  }

  /** Every result has a numeric total return. */
  predicate AllNumeric(results: seq<MCMCResult>)
  {
    forall i :: 0 <= i < |results| ==> results[i].totalReturn.Some?
  }

  /** `results.map(r => r.totalReturn)` over results that are all numeric. */
  function TotalReturns(results: seq<MCMCResult>): (r: seq<real>)
    requires AllNumeric(results)
    ensures |r| == |results|
    ensures forall i :: 0 <= i < |r| ==> Some(r[i]) == results[i].totalReturn
  {
    seq(|results|, i requires 0 <= i < |results| => results[i].totalReturn.value)
  }

  // ---------------------------------------------------------------------
  // Value at Risk

  datatype VaR = VaR(var95: real, var99: real, expectedShortfall: Option<real>)

  function Mean(s: seq<real>): (r: Option<real>)
    ensures r.Some? <==> s != []
    ensures r.Some? ==> r.value * |s| as real == Sum(s)
  {
    if s == [] then None else Some(Sum(s) / |s| as real)
  }

  /** `calculateVaR(returns)` on a sorted copy: `None` for an empty input (both
      indices undefined), and no expected shortfall for fewer than 20 returns
      (an empty tail divides 0 by 0). */
  function CalculateVaR(values: seq<real>): (r: Option<VaR>)
    ensures r.Some? <==> |values| >= 1
    ensures r.Some? ==> r.value.var99 <= r.value.var95
    ensures r.Some? ==> r.value.var95 in values && r.value.var99 in values
    ensures r.Some? ==> (r.value.expectedShortfall.Some? <==> |values| >= 20)
    ensures r.Some? && r.value.expectedShortfall.Some? ==> r.value.expectedShortfall.value <= r.value.var95
  {
    if values == [] then None
    else
      var sorted := SortAsc(values);
      var n := |sorted|;
      PercentileIndexInRange(n, 0.01, 0.05);
      var i95 := PercentileIndex(n, 0.05);
      var i99 := PercentileIndex(n, 0.01);
      var tail := sorted[..i95];
      PermutationMembers(sorted, values, i95);
      PermutationMembers(sorted, values, i99);
      TailSizeAtLeastOne(n);
      TailMeanBelow(sorted, i95);
      Some(VaR(sorted[i95], sorted[i99], Mean(tail)))
  }

  /** `floor(0.05 n)` is positive exactly from 20 returns on. */
  lemma TailSizeAtLeastOne(n: nat)
    ensures PercentileIndex(n, 0.05) >= 1 <==> n >= 20
  {
    if n >= 20 {
      assert n as real * 0.05 >= 1.0;
    } else {
      assert n as real * 0.05 < 1.0;
    }
  }

  /** The mean of the values below index `k` of a sorted sequence is at most `sorted[k]`. */
  lemma TailMeanBelow(sorted: seq<real>, k: nat)
    requires k < |sorted| && SortedAsc(sorted)
    ensures Mean(sorted[..k]).Some? ==> Mean(sorted[..k]).value <= sorted[k]
  {
    var tail := sorted[..k];
    if tail != [] {
      SumBoundedAbove(tail, sorted[k]);
      assert Sum(tail) / |tail| as real <= (|tail| as real * sorted[k]) / |tail| as real;
    }
  }

  // ---------------------------------------------------------------------
  // Risk matrix

  datatype RiskRow = RiskRow(name: string, expectedReturn: real, volatility: real,
                             var95: Option<real>, sharpeRatio: real, beta: real)

  /** `(expectedReturn - 4) / volatility`, with the 4% risk-free rate in percent. */
  function RiskSharpe(stock: Stock): (r: real)
    requires stock.volatility != 0.0
    ensures r * stock.volatility == stock.expectedReturn - 4.0
    ensures stock.volatility > 0.0 ==> (r > 0.0 <==> stock.expectedReturn > 4.0)
  {
    (stock.expectedReturn - 4.0) / stock.volatility
  }

  /** One row of the matrix from the stock's paths. A NaN total return makes
      the comparator `a - b` of the sort inconsistent, which leaves the order
      (and so the VaR) implementation-defined; the row reports it as `None`. */
  function RiskRowOf(stock: Stock, outcomes: seq<MCMCResult>): (r: RiskRow)
    requires stock.volatility != 0.0
    ensures r.name == stock.symbol && r.beta == stock.beta
    ensures r.sharpeRatio == RiskSharpe(stock)
    ensures r.var95.Some? <==> |outcomes| >= 1 && AllNumeric(outcomes)
    ensures r.var95.Some? ==> r.var95.value >= 0.0
  {
    var var95 :=
      if |outcomes| >= 1 && AllNumeric(outcomes) then
        Some(Abs(CalculateVaR(TotalReturns(outcomes)).value.var95))
      else None;
    RiskRow(stock.symbol, stock.expectedReturn, stock.volatility, var95, RiskSharpe(stock), stock.beta)
  }

  lemma TopStocksVolatile()
    ensures forall i :: 0 <= i < |TopStocks| ==> TopStocks[i].volatility > 0.0
  {
  }

  /** The paths of one stock in the risk matrix. */
  function StockOutcomes(stock: Stock, years: nat, rootTwelve: real, zs: seq<seq<real>>): seq<MCMCResult>
    requires rootTwelve > 0.0
    requires forall s :: 0 <= s < |zs| ==> |zs[s]| == years * 12
  {
    seq(|zs|, s requires 0 <= s < |zs| => PathOutcome(stock, years * 12, rootTwelve, zs[s], s))
  }

  /** `generateRiskMatrix()`: 100 paths per stock, one row per stock, in order. */
  method GenerateRiskMatrix(years: nat, rootTwelve: real, zsPerStock: seq<seq<seq<real>>>)
    returns (matrix: seq<RiskRow>)
    requires rootTwelve > 0.0 && |zsPerStock| == |TopStocks|
    requires forall i :: 0 <= i < |zsPerStock| ==> |zsPerStock[i]| == MatrixSimulations
    requires forall i, s :: 0 <= i < |zsPerStock| && 0 <= s < |zsPerStock[i]| ==> |zsPerStock[i][s]| == years * 12
    ensures |matrix| == |TopStocks|
    ensures forall i :: 0 <= i < |TopStocks| ==>
      matrix[i] == RiskRowOf(TopStocks[i], StockOutcomes(TopStocks[i], years, rootTwelve, zsPerStock[i]))
  {
    TopStocksVolatile();
    matrix := RiskRows(TopStocks, years, rootTwelve, zsPerStock);
  }

  /** The loop of `generateRiskMatrix` over any list of volatile stocks. */
  method RiskRows(stocks: seq<Stock>, years: nat, rootTwelve: real, zsPerStock: seq<seq<seq<real>>>)
    returns (matrix: seq<RiskRow>)
    requires rootTwelve > 0.0 && |zsPerStock| == |stocks|
    requires forall i :: 0 <= i < |stocks| ==> stocks[i].volatility > 0.0
    requires forall i :: 0 <= i < |zsPerStock| ==> |zsPerStock[i]| == MatrixSimulations
    requires forall i, s :: 0 <= i < |zsPerStock| && 0 <= s < |zsPerStock[i]| ==> |zsPerStock[i][s]| == years * 12
    ensures |matrix| == |stocks|
    ensures forall i :: 0 <= i < |stocks| ==>
      matrix[i] == RiskRowOf(stocks[i], StockOutcomes(stocks[i], years, rootTwelve, zsPerStock[i]))
  {
    ghost var expected := seq(|stocks|, j requires 0 <= j < |stocks| =>
      RiskRowOf(stocks[j], StockOutcomes(stocks[j], years, rootTwelve, zsPerStock[j])));
    matrix := [];
    var i := 0;
    while i < |stocks|
      invariant 0 <= i <= |stocks| && matrix == expected[..i]
    {
      var zs := zsPerStock[i];
      assert forall s :: 0 <= s < |zs| ==> |zs[s]| == years * 12;
      var row := RiskRowFor(stocks[i], years, rootTwelve, zs);
      assert expected[i] == row;
      SnocPrefix(expected, i, row);
      matrix := matrix + [row];
      i := i + 1;
    }
    assert matrix == expected;
  }

  /** One turn of that loop: the stock's paths, then its row. */
  method RiskRowFor(stock: Stock, years: nat, rootTwelve: real, zs: seq<seq<real>>) returns (row: RiskRow)
    requires rootTwelve > 0.0 && stock.volatility > 0.0 && |zs| == MatrixSimulations
    requires forall s :: 0 <= s < |zs| ==> |zs[s]| == years * 12
    ensures row == RiskRowOf(stock, StockOutcomes(stock, years, rootTwelve, zs))
  {
    var outcomes := RunMCMCSimulation(stock, years, rootTwelve, MatrixSimulations, zs);
    assert outcomes == StockOutcomes(stock, years, rootTwelve, zs);
    row := RiskRowOf(stock, outcomes);
  }

  /** The VaR chart of the selected stock, over the accepted paths only. With
      no accepted path both percentile indices are undefined; with an accepted
      NaN path the sort order is implementation-defined (see `RiskRowOf`). */
  function PanelVaR(results: seq<MCMCResult>): (r: Option<VaR>)
    ensures r.Some? <==> (exists i :: 0 <= i < |results| && Accepted(results[i]))
                         && forall i :: 0 <= i < |results| && Accepted(results[i]) ==> results[i].totalReturn.Some?
  {
    var accepted := FilteredResults(results);
    if accepted != [] && AllNumeric(accepted) then
      assert Accepted(accepted[0]);
      assert forall i :: 0 <= i < |results| && Accepted(results[i]) ==> results[i].totalReturn.Some? by {
        forall i | 0 <= i < |results| && Accepted(results[i])
          ensures results[i].totalReturn.Some?
        {
          var j :| 0 <= j < |accepted| && accepted[j] == results[i];
        }
      }
      CalculateVaR(TotalReturns(accepted))
    else None
  }

  /** The selected-stock panel: 500 paths, the accepted ones, and the VaR of
      their total returns. */
  method AnalyzeSelectedStock(selected: nat, years: nat, rootTwelve: real, zs: seq<seq<real>>)
    returns (results: seq<MCMCResult>, accepted: seq<MCMCResult>, varData: Option<VaR>)
    requires selected < |TopStocks| && rootTwelve > 0.0 && |zs| == PanelSimulations
    requires forall s :: 0 <= s < |zs| ==> |zs[s]| == years * 12
    ensures results == StockOutcomes(TopStocks[selected], years, rootTwelve, zs)
    ensures accepted == FilteredResults(results) && IsSubsequence(accepted, results)
    ensures varData == PanelVaR(results)
  {
    results := RunMCMCSimulation(TopStocks[selected], years, rootTwelve, PanelSimulations, zs);
    accepted := FilteredResults(results);
    FilteredIsSubsequence(results);
    varData := PanelVaR(results);
  }
}
