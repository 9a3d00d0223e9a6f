/** The trading-strategies panel: four strategies with their headline
    metrics, the selected tab, and a simulated twelve-month performance
    line of the yearly investment against a 7% benchmark. */
module TradingStrategies {
  import opened Prelude

  datatype Metrics = Metrics(sharpeRatio: real, maxDrawdown: real, winRate: real, avgReturn: real)

  datatype Strategy = Strategy(
    id: string,
    name: string,
    category: string,
    riskLevel: string,
    expectedReturn: string,
    timeHorizon: string,
    complexity: string,
    metrics: Metrics)

  const Strategies: seq<Strategy> := [
    Strategy("momentum", "Momentum Strategy", "Technical Analysis", "Medium", "8-15%", "3-6 months", "Beginner",
             Metrics(0.85, 15.0, 52.0, 12.0)),
    Strategy("nday", "N-Day Return Strategy", "Mean Reversion", "Low-Medium", "6-12%", "1-4 weeks", "Beginner",
             Metrics(0.72, 12.0, 58.0, 9.0)),
    Strategy("crossover", "Moving Average Crossover", "Trend Following", "Medium", "10-18%", "2-12 months", "Intermediate",
             Metrics(0.91, 18.0, 48.0, 14.0)),
    Strategy("volatility", "Volatility Filter Strategy", "Risk Management", "Low", "5-10%", "Variable", "Advanced",
             Metrics(1.12, 8.0, 62.0, 7.5))]

  /** `strategies.find(s => s.id === id)`. */
  function Find(strategies: seq<Strategy>, id: string): (r: Option<nat>)
    ensures r.Some? ==> r.value < |strategies| && strategies[r.value].id == id
    ensures r.Some? ==> forall j :: 0 <= j < r.value ==> strategies[j].id != id
    ensures r.None? ==> forall j :: 0 <= j < |strategies| ==> strategies[j].id != id
  {
    if strategies == [] then None
    else if strategies[0].id == id then Some(0)
    else
      match Find(strategies[1..], id)
      case None => None
      case Some(k) => Some(k + 1)
  }

  /** `currentStrategy`: the first strategy with the selected id, or the
      first strategy when none has it. */
  function CurrentStrategy(strategies: seq<Strategy>, selected: string): (s: Strategy)
    requires strategies != []
    ensures s in strategies
    ensures (exists j :: 0 <= j < |strategies| && strategies[j].id == selected) ==> s.id == selected
    ensures (forall j :: 0 <= j < |strategies| ==> strategies[j].id != selected) ==> s == strategies[0]
  {
    match Find(strategies, selected)
    case Some(k) => strategies[k]
    case None => strategies[0]
  }

  /** The panel opens on the momentum strategy. */
  lemma OpensOnMomentum()
    ensures CurrentStrategy(Strategies, "momentum") == Strategies[0]
  {
  }

  /** The risk badge's variant. */
  function RiskVariant(riskLevel: string): (v: string)
    ensures riskLevel == "Low" <==> v == "default"
    ensures riskLevel == "Medium" <==> v == "secondary"
    ensures riskLevel != "Low" && riskLevel != "Medium" <==> v == "destructive"
  {
    if riskLevel == "Low" then "default" else if riskLevel == "Medium" then "secondary" else "destructive"
  }

  // ---------------------------------------------------------------------
  // The performance line

  datatype Point = Point(month: nat, value: int, benchmark: int)

  const Months: nat := 12

  /** `maxDrawdown / 100`. */
  function Volatility(s: Strategy): real
  {
    s.metrics.maxDrawdown / 100.0
  }

  /** `avgReturn / 100 / 12`: the monthly drift. */
  function Drift(s: Strategy): (d: real)
    ensures d == s.metrics.avgReturn / 1200.0
  {
    s.metrics.avgReturn / 100.0 / 12.0
  }

  /** `(Math.random() - 0.5) * volatility * 2` for a draw `u`. */
  function RandomFactor(s: Strategy, u: real): real
  {
    (u - 0.5) * Volatility(s) * 2.0
  }

  /** A uniform draw in [0, 1) gives a factor in [-vol, vol). */
  lemma RandomFactorRange(s: Strategy, u: real)
    requires 0.0 <= u < 1.0 && s.metrics.maxDrawdown > 0.0
    ensures -Volatility(s) <= RandomFactor(s, u) < Volatility(s)
  {
    var v := Volatility(s);
    assert v > 0.0;
    assert RandomFactor(s, u) == (2.0 * u - 1.0) * v;
    assert -1.0 <= 2.0 * u - 1.0 < 1.0;
    assert -v <= (2.0 * u - 1.0) * v by {
      assert (2.0 * u - 1.0) * v - (-v) == (2.0 * u) * v;
      assert (2.0 * u) * v >= 0.0;
    }
    assert (2.0 * u - 1.0) * v < v by {
      assert v - (2.0 * u - 1.0) * v == (2.0 - 2.0 * u) * v;
      assert (2.0 - 2.0 * u) * v > 0.0;
    }
  }

  /** The portfolio after `i` months: the yearly investment grown by the
      month returns of months 1 to `i`; month 0 is not grown. */
  function ValueAfter(s: Strategy, remainingIncome: real, draws: seq<real>, i: nat): (r: real)
    requires i < |draws|
    ensures remainingIncome >= 0.0 && (forall k :: 1 <= k <= i ==> 1.0 + Drift(s) + RandomFactor(s, draws[k]) >= 0.0)
            ==> r >= 0.0
  {
    if i == 0 then remainingIncome * 12.0
    else
      var before := ValueAfter(s, remainingIncome, draws, i - 1);
      var factor := 1.0 + Drift(s) + RandomFactor(s, draws[i]);
      assert before >= 0.0 && factor >= 0.0 ==> before * factor >= 0.0;
      before * factor
  }

  function Power(x: real, n: nat): real
  {
    if n == 0 then 1.0 else Power(x, n - 1) * x
  }

  /** Point `i` of the line; `monthlyBenchmark` is the twelfth root of 1.07,
      so `Power(monthlyBenchmark, i)` is `Math.pow(1.07, i / 12)`. */
  function PointAt(s: Strategy, remainingIncome: real, draws: seq<real>, monthlyBenchmark: real, i: nat): (r: Point)
    requires i < |draws|
    ensures r.month == i
    ensures i == 0 ==> r.value == Round(remainingIncome * 12.0) && r.benchmark == Round(remainingIncome * 12.0)
  {
    Point(i, Round(ValueAfter(s, remainingIncome, draws, i)),
          Round(remainingIncome * 12.0 * Power(monthlyBenchmark, i)))
  }

  /** `generatePerformanceData`: thirteen points, months 0 to 12; `draws`
      holds the `Math.random()` value drawn in each of the thirteen turns. */
  method GeneratePerformanceData(s: Strategy, remainingIncome: real, draws: seq<real>, monthlyBenchmark: real)
    returns (data: seq<Point>)
    requires |draws| == Months + 1
    ensures |data| == Months + 1
    ensures forall i :: 0 <= i <= Months ==> data[i] == PointAt(s, remainingIncome, draws, monthlyBenchmark, i)
  {
    data := [];
    var portfolioValue := remainingIncome * 12.0;
    var i := 0;
    while i <= Months
      invariant 0 <= i <= Months + 1 && |data| == i
      invariant forall k :: 0 <= k < i ==> data[k] == PointAt(s, remainingIncome, draws, monthlyBenchmark, k)
      invariant i <= Months ==> portfolioValue == (if i == 0 then remainingIncome * 12.0
                                                  else ValueAfter(s, remainingIncome, draws, i - 1))
    {
      var volatility := s.metrics.maxDrawdown / 100.0;
      var expectedReturn := s.metrics.avgReturn / 100.0 / 12.0;
      var randomFactor := (draws[i] - 0.5) * volatility * 2.0;
      var monthlyReturn := expectedReturn + randomFactor;
      if i > 0 {
        portfolioValue := portfolioValue * (1.0 + monthlyReturn);
      }
      assert portfolioValue == ValueAfter(s, remainingIncome, draws, i);
      data := data + [Point(i, Round(portfolioValue), Round(remainingIncome * 12.0 * Power(monthlyBenchmark, i)))];
      i := i + 1;
    }
  }

  /** The last benchmark point is the investment grown by 7%. */
  lemma LastBenchmark(s: Strategy, remainingIncome: real, draws: seq<real>, monthlyBenchmark: real)
    requires |draws| == Months + 1
    requires Power(monthlyBenchmark, 12) == 1.07
    ensures PointAt(s, remainingIncome, draws, monthlyBenchmark, Months).benchmark == Round(remainingIncome * 12.0 * 1.07)
  {
  }

  /** With every draw at the midpoint the line grows by the drift alone. */
  lemma MidpointDrawsGrowByDrift(s: Strategy, remainingIncome: real, draws: seq<real>, i: nat)
    requires i < |draws| && forall k :: 0 <= k < |draws| ==> draws[k] == 0.5
    ensures ValueAfter(s, remainingIncome, draws, i) == remainingIncome * 12.0 * Power(1.0 + Drift(s), i)
  {
    if i > 0 {
      MidpointDrawsGrowByDrift(s, remainingIncome, draws, i - 1);
      assert RandomFactor(s, draws[i]) == 0.0;
    }
  }
}
