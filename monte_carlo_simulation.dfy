/** The Monte Carlo projection engine of the projection chart: risk-adjusted
    monthly random walks of a portfolio with a monthly contribution, yearly
    snapshots, and percentile bands over the trajectories.

    The standard-normal samples that the component draws with the Box-Muller
    transform are an input (`zs[s][m - 1]` is the sample of month `m` of
    simulation `s`), and the value of `Math.sqrt(12)` is the parameter
    `rootTwelve`. */
module MonteCarloSimulation {
  import opened Prelude
  import opened Sorting

  /** Annual risk-free rate used by the Sharpe-ratio step. */
  const RiskFreeRate: real := 0.04

  /** `runSimulation()` is called with its default of 1000 trajectories. */
  const DefaultSimulations: nat := 1000

  /** The chart component runs from year 0. */
  const ChartStartYear: int := 0

  datatype Params = Params(
    initialAmount: real,
    monthlyContribution: real,
    expectedReturn: real,   // percent per year
    volatility: real,       // percent per year
    years: nat)

  datatype Snapshot = Snapshot(year: int, value: real)

  datatype SimResult = SimResult(
    simulation: nat,
    finalValue: real,
    yearlyValues: seq<Snapshot>,
    sharpeRatio: real)

  datatype Bands = Bands(p10: real, p25: real, p50: real, p75: real, p90: real)

  datatype ChartRow = ChartRow(year: int, bands: Bands)

  // ---------------------------------------------------------------------
  // Risk adjustment

  function SharpeRatio(expectedReturn: real, volatility: real): (r: real)
    requires volatility != 0.0
    ensures r * (volatility / 100.0) == expectedReturn / 100.0 - RiskFreeRate
    ensures volatility > 0.0 ==> (r > 0.0 <==> expectedReturn > 100.0 * RiskFreeRate)
  {
    (expectedReturn / 100.0 - RiskFreeRate) / (volatility / 100.0)
  }

  /** `riskFreeRate + sharpeRatio * standardDeviation`: over exact arithmetic the
      Sharpe step cancels out and leaves the expected return as a fraction. */
  function AdjustedReturn(expectedReturn: real, volatility: real): (r: real)
    requires volatility != 0.0
    ensures r == expectedReturn / 100.0
  {
    RiskFreeRate + SharpeRatio(expectedReturn, volatility) * (volatility / 100.0)
  }

  // ---------------------------------------------------------------------
  // One trajectory

  /** `adjustedReturn / 12 + (standardDeviation / Math.sqrt(12)) * z0`. */
  function MonthlyReturn(p: Params, rootTwelve: real, z: real): (r: real)
    requires p.volatility != 0.0 && rootTwelve > 0.0
    ensures z == 0.0 ==> r == p.expectedReturn / 1200.0
  {
    AdjustedReturn(p.expectedReturn, p.volatility) / 12.0 + (p.volatility / 100.0 / rootTwelve) * z
  }

  /** The portfolio value after `m` months of `value := value * (1 + r) + c`. */
  function ValueAfter(p: Params, rootTwelve: real, z: seq<real>, m: nat): real
    requires p.volatility != 0.0 && rootTwelve > 0.0
    requires m <= |z|
  {
    if m == 0 then p.initialAmount
    else ValueAfter(p, rootTwelve, z, m - 1) * (1.0 + MonthlyReturn(p, rootTwelve, z[m - 1])) + p.monthlyContribution
  }

  /** The `k`-th yearly snapshot: the unrounded initial amount for `k = 0`,
      then the rounded value after month `12 k`. */
  function YearSnapshot(p: Params, startYear: int, rootTwelve: real, z: seq<real>, k: nat): Snapshot
    requires p.volatility != 0.0 && rootTwelve > 0.0
    requires 12 * k <= |z|
  {
    if k == 0 then Snapshot(startYear, p.initialAmount)
    else Snapshot(startYear + k, Round(ValueAfter(p, rootTwelve, z, 12 * k)) as real)
  }

  /** The inner loop of `runSimulation`: `years * 12` monthly updates, with a
      snapshot pushed whenever the month is a multiple of 12. */
  method SimulateTrajectory(p: Params, startYear: int, rootTwelve: real, z: seq<real>)
    returns (finalValue: real, yearlyValues: seq<Snapshot>)
    requires p.volatility != 0.0 && rootTwelve > 0.0
    requires |z| == p.years * 12
    ensures finalValue == ValueAfter(p, rootTwelve, z, p.years * 12)
    ensures |yearlyValues| == p.years + 1
    ensures forall k :: 0 <= k <= p.years ==> yearlyValues[k] == YearSnapshot(p, startYear, rootTwelve, z, k)
  {
    var months := p.years * 12;
    var value := p.initialAmount;
    yearlyValues := [Snapshot(startYear, p.initialAmount)];
    var month := 1;
    while month <= months
      invariant 1 <= month <= months + 1
      invariant value == ValueAfter(p, rootTwelve, z, month - 1)
      invariant |yearlyValues| == (month - 1) / 12 + 1
      invariant forall k :: 0 <= k < |yearlyValues| ==> yearlyValues[k] == YearSnapshot(p, startYear, rootTwelve, z, k)
    {
      value := value * (1.0 + MonthlyReturn(p, rootTwelve, z[month - 1])) + p.monthlyContribution;
      if month % 12 == 0 {
        yearlyValues := yearlyValues + [Snapshot(startYear + month / 12, Round(value) as real)];
      }
      month := month + 1;
    }
    finalValue := value;
  }

  /** `runSimulation(simulations)`: one trajectory per row of samples. */
  method RunSimulation(p: Params, startYear: int, rootTwelve: real, simulations: nat, zs: seq<seq<real>>)
    returns (results: seq<SimResult>)
    requires p.volatility != 0.0 && rootTwelve > 0.0
    requires |zs| == simulations
    requires forall s :: 0 <= s < |zs| ==> |zs[s]| == p.years * 12
    ensures |results| == simulations
    ensures forall s :: 0 <= s < simulations ==>
      results[s].simulation == s
      && results[s].sharpeRatio == SharpeRatio(p.expectedReturn, p.volatility)
      && results[s].finalValue == ValueAfter(p, rootTwelve, zs[s], p.years * 12)
      && |results[s].yearlyValues| == p.years + 1
      && forall k :: 0 <= k <= p.years ==> results[s].yearlyValues[k] == YearSnapshot(p, startYear, rootTwelve, zs[s], k)
  {
    var sharpeRatio := SharpeRatio(p.expectedReturn, p.volatility);
    results := [];
    var sim := 0;
    while sim < simulations
      invariant 0 <= sim <= simulations
      invariant |results| == sim
      invariant forall s :: 0 <= s < sim ==>
        results[s].simulation == s
        && results[s].sharpeRatio == sharpeRatio
        && results[s].finalValue == ValueAfter(p, rootTwelve, zs[s], p.years * 12)
        && |results[s].yearlyValues| == p.years + 1
        && forall k :: 0 <= k <= p.years ==> results[s].yearlyValues[k] == YearSnapshot(p, startYear, rootTwelve, zs[s], k)
    {
      var finalValue, yearlyValues := SimulateTrajectory(p, startYear, rootTwelve, zs[sim]);
      results := results + [SimResult(sim, finalValue, yearlyValues, sharpeRatio)];
      sim := sim + 1;
    }
  }

  // ---------------------------------------------------------------------
  // Percentiles

  /** `Math.floor(n * q)`. */
  function PercentileIndex(n: nat, q: real): int
  {
    (n as real * q).Floor
  }

  /** For a fraction `q` in [0, 1) and a non-empty sequence the index is in range,
      and it does not decrease as `q` grows. */
  lemma PercentileIndexInRange(n: nat, q: real, q': real)
    requires n >= 1 && 0.0 <= q <= q' < 1.0
    ensures 0 <= PercentileIndex(n, q) <= PercentileIndex(n, q') < n
  {
    var a, b := n as real * q, n as real * q';
    ScaleMonotone(n as real, q, q');
    ScaleMonotone(n as real, q', 1.0);
    ScaleMonotone(n as real, 0.0, q);
    assert 0.0 <= a <= b;
    assert b < n as real by {
      assert n as real * (1.0 - q') > 0.0;
    }
    assert a.Floor as real <= a && b < b.Floor as real + 1.0;
  }

  lemma ScaleMonotone(c: real, x: real, y: real)
    requires c >= 0.0 && x <= y
    ensures c * x <= c * y
  {
    assert c * y - c * x == c * (y - x);
  }

  /** `sorted[Math.floor(sorted.length * q)]`. */
  function Percentile(sorted: seq<real>, q: real): (r: real)
    requires |sorted| >= 1 && 0.0 <= q < 1.0
  {
    PercentileIndexInRange(|sorted|, q, q);
    sorted[PercentileIndex(|sorted|, q)]
  }

  /** A percentile is one of the samples, and of a sorted sequence one
      between its first and its last. */
  lemma PercentileIsSample(sorted: seq<real>, q: real)
    requires |sorted| >= 1 && 0.0 <= q < 1.0
    ensures Percentile(sorted, q) in sorted
    ensures SortedAsc(sorted) ==> sorted[0] <= Percentile(sorted, q) <= sorted[|sorted| - 1]
  {
    PercentileIndexInRange(|sorted|, q, q);
  }

  /** The five percentiles of a sorted sequence come out in order. */
  function BandsOf(sorted: seq<real>): (b: Bands)
    requires |sorted| >= 1 && SortedAsc(sorted)
    ensures b.p10 <= b.p25 <= b.p50 <= b.p75 <= b.p90
    ensures b.p10 in sorted && b.p90 in sorted
  {
    var n := |sorted|;
    PercentileIndexInRange(n, 0.1, 0.25);
    PercentileIndexInRange(n, 0.25, 0.5);
    PercentileIndexInRange(n, 0.5, 0.75);
    PercentileIndexInRange(n, 0.75, 0.9);
    Bands(Percentile(sorted, 0.1), Percentile(sorted, 0.25), Percentile(sorted, 0.5),
          Percentile(sorted, 0.75), Percentile(sorted, 0.9))
  }

  /** `simulationResults.map(r => r.finalValue).sort((a, b) => a - b)`. */
  function FinalValues(results: seq<SimResult>): (r: seq<real>)
    ensures |r| == |results| && SortedAsc(r)
    ensures multiset(r) == multiset(seq(|results|, i requires 0 <= i < |results| => results[i].finalValue))
  {
    SortAsc(seq(|results|, i requires 0 <= i < |results| => results[i].finalValue))
  }

  /** The key statistics: the percentiles of the final values. */
  function FinalPercentiles(results: seq<SimResult>): (b: Bands)
    requires |results| >= 1
    ensures b.p10 <= b.p25 <= b.p50 <= b.p75 <= b.p90
  {
    BandsOf(FinalValues(results))
  }

  // ---------------------------------------------------------------------
  // Chart data

  /** `yearlyValues.find(y => y.year === year)?.value`. */
  function FindYear(yearly: seq<Snapshot>, year: int): (r: Option<real>)
    ensures r.Some? <==> exists i :: 0 <= i < |yearly| && yearly[i].year == year
  {
    if yearly == [] then None
    else if yearly[0].year == year then Some(yearly[0].value)
    else FindYear(yearly[1..], year)
  }

  /** `?.value || 0`: a missing year, and a value of zero, both give 0. */
  function OrZero(v: Option<real>): real
  {
    match v
    case Some(x) => x
    case None => 0.0
  }

  /** The values recorded for `year`, one per trajectory, before sorting. */
  function YearColumn(results: seq<SimResult>, year: int): (c: seq<real>)
    ensures |c| == |results|
  {
    seq(|results|, i requires 0 <= i < |results| => OrZero(FindYear(results[i].yearlyValues, year)))
  }

  /** The chart row of `year`: the bands of the sorted column of that year. */
  function RowOf(results: seq<SimResult>, year: int): (row: ChartRow)
    requires |results| >= 1
    ensures row.year == year
    ensures row.bands.p10 <= row.bands.p25 <= row.bands.p50 <= row.bands.p75 <= row.bands.p90
    ensures row.bands.p10 in SortAsc(YearColumn(results, year))
    ensures row.bands.p90 in SortAsc(YearColumn(results, year))
  {
    ChartRow(year, BandsOf(SortAsc(YearColumn(results, year))))
  }

  /** The chart loop: one row per year from `startYear` to `startYear + years`,
      row `k` being the row of year `startYear + k`. */
  method ChartData(results: seq<SimResult>, startYear: int, years: nat) returns (chart: seq<ChartRow>)
    requires |results| >= 1
    ensures |chart| == years + 1
    ensures forall k :: 0 <= k <= years ==> chart[k] == RowOf(results, startYear + k)
  {
    chart := [];
    var year := startYear;
    while year <= startYear + years
      invariant startYear <= year <= startYear + years + 1
      invariant |chart| == year - startYear
      invariant forall k :: 0 <= k < |chart| ==> chart[k] == RowOf(results, startYear + k)
    {
      var row := YearRow(results, year);
      chart := chart + [row];
      year := year + 1;
    }
  }

  /** One turn of the chart loop: the year's column, sorted, and its bands. */
  method YearRow(results: seq<SimResult>, year: int) returns (row: ChartRow)
    requires |results| >= 1
    ensures row == RowOf(results, year)
  {
    var yearValues := SortAsc(YearColumn(results, year));
    row := ChartRow(year, BandsOf(yearValues));
  }

  /** In a trajectory every year of the horizon is recorded, at its own index,
      so the lookup finds the snapshot of that year. */
  lemma {:induction false} FindRecordedYear(yearly: seq<Snapshot>, startYear: int, k: nat)
    requires k < |yearly|
    requires forall j :: 0 <= j < |yearly| ==> yearly[j].year == startYear + j
    ensures FindYear(yearly, startYear + k) == Some(yearly[k].value)
  {
    if k > 0 {
      assert yearly[0].year != startYear + k;
      forall j | 0 <= j < |yearly[1..]| ensures yearly[1..][j].year == (startYear + 1) + j {
        assert yearly[1..][j] == yearly[j + 1];
      }
      FindRecordedYear(yearly[1..], startYear + 1, k - 1);
    }
  }

  /** The `|| 0` default of the chart never fires on simulated trajectories:
      the column of year `startYear + k` holds each trajectory's snapshot `k`. */
  lemma ColumnIsSnapshots(p: Params, startYear: int, rootTwelve: real, zs: seq<seq<real>>,
                          results: seq<SimResult>, k: nat)
    requires p.volatility != 0.0 && rootTwelve > 0.0
    requires forall s :: 0 <= s < |zs| ==> |zs[s]| == p.years * 12
    requires |results| == |zs| && k <= p.years
    requires forall s :: 0 <= s < |results| ==>
      |results[s].yearlyValues| == p.years + 1
      && forall j :: 0 <= j <= p.years ==> results[s].yearlyValues[j] == YearSnapshot(p, startYear, rootTwelve, zs[s], j)
    ensures forall s :: 0 <= s < |results| ==>
      YearColumn(results, startYear + k)[s] == YearSnapshot(p, startYear, rootTwelve, zs[s], k).value
  {
    forall s | 0 <= s < |results|
      ensures YearColumn(results, startYear + k)[s] == YearSnapshot(p, startYear, rootTwelve, zs[s], k).value
    {
      var yearly := results[s].yearlyValues;
      forall j | 0 <= j < |yearly| ensures yearly[j].year == startYear + j {
        assert yearly[j] == YearSnapshot(p, startYear, rootTwelve, zs[s], j);
      }
      FindRecordedYear(yearly, startYear, k);
    }
  }

  /** The whole component: 1000 trajectories from `startYear`, the key
      statistics of the final values and one chart row per year of the
      horizon. Every key statistic is a final value, and every chart cell of
      year `startYear + k` is the rounded snapshot `k` of some trajectory
      (never the `|| 0` default). The chart component runs it from
      `ChartStartYear`. */
  method Project(p: Params, startYear: int, rootTwelve: real, zs: seq<seq<real>>)
    returns (results: seq<SimResult>, stats: Bands, chart: seq<ChartRow>)
    requires p.volatility != 0.0 && rootTwelve > 0.0
    requires |zs| == DefaultSimulations
    requires forall s :: 0 <= s < |zs| ==> |zs[s]| == p.years * 12
    ensures |results| == DefaultSimulations
    ensures forall s :: 0 <= s < |results| ==>
      |results[s].yearlyValues| == p.years + 1
      && results[s].yearlyValues[0] == Snapshot(startYear, p.initialAmount)
      && results[s].yearlyValues[p.years].year == startYear + p.years
    ensures stats == FinalPercentiles(results)
    ensures stats.p10 <= stats.p25 <= stats.p50 <= stats.p75 <= stats.p90
    ensures exists s :: 0 <= s < |results| && stats.p10 == results[s].finalValue
    ensures |chart| == p.years + 1
    ensures forall k :: 0 <= k <= p.years ==> chart[k] == RowOf(results, startYear + k)
    ensures forall k: nat, s :: k <= p.years && 0 <= s < |zs| ==>
      YearColumn(results, startYear + k)[s] == YearSnapshot(p, startYear, rootTwelve, zs[s], k).value
  {
    results := RunSimulation(p, startYear, rootTwelve, DefaultSimulations, zs);
    stats := FinalPercentiles(results);
    FinalStatIsFinalValue(results);
    chart := ChartData(results, startYear, p.years);
    forall k: nat, s | k <= p.years && 0 <= s < |zs|
      ensures YearColumn(results, startYear + k)[s] == YearSnapshot(p, startYear, rootTwelve, zs[s], k).value
    {
      ColumnIsSnapshots(p, startYear, rootTwelve, zs, results, k);
    }
  }

  /** The lowest key statistic is the final value of some trajectory. */
  lemma FinalStatIsFinalValue(results: seq<SimResult>)
    requires |results| >= 1
    ensures exists s :: 0 <= s < |results| && FinalPercentiles(results).p10 == results[s].finalValue
  {
    var finals := seq(|results|, i requires 0 <= i < |results| => results[i].finalValue);
    var p10 := FinalPercentiles(results).p10;
    assert p10 in FinalValues(results);
    assert p10 in multiset(finals);
    var s :| 0 <= s < |finals| && finals[s] == p10;
  }

  // ---------------------------------------------------------------------
  // Contributions reference line

  /** `initialAmount + monthlyContribution * years * 12`. */
  function TotalContributions(p: Params): (r: real)
    ensures p.years == 0 ==> r == p.initialAmount
    ensures p.monthlyContribution >= 0.0 ==> r >= p.initialAmount
  {
    p.initialAmount + p.monthlyContribution * p.years as real * 12.0
  }

  /** With a zero return every month, a trajectory ends exactly at the total
      contributions: the reference line is the zero-growth path. */
  lemma {:induction false} ZeroReturnReachesContributions(p: Params, rootTwelve: real, z: seq<real>, m: nat)
    requires p.volatility != 0.0 && rootTwelve > 0.0
    requires m <= |z|
    requires forall i :: 0 <= i < |z| ==> MonthlyReturn(p, rootTwelve, z[i]) == 0.0
    ensures ValueAfter(p, rootTwelve, z, m) == p.initialAmount + p.monthlyContribution * m as real
  {
    if m > 0 {
      ZeroReturnReachesContributions(p, rootTwelve, z, m - 1);
    }
  }

  lemma ZeroReturnTotal(p: Params, rootTwelve: real, z: seq<real>)
    requires p.volatility != 0.0 && rootTwelve > 0.0
    requires |z| == p.years * 12
    requires forall i :: 0 <= i < |z| ==> MonthlyReturn(p, rootTwelve, z[i]) == 0.0
    ensures ValueAfter(p, rootTwelve, z, p.years * 12) == TotalContributions(p)
  {
    ZeroReturnReachesContributions(p, rootTwelve, z, p.years * 12);
  }

  /** Without contributions the model is linear in the starting capital:
      scaling the initial amount scales every value of the trajectory. */
  lemma {:induction false} ScaleInitialAmount(p: Params, c: real, rootTwelve: real, z: seq<real>, m: nat)
    requires p.volatility != 0.0 && rootTwelve > 0.0
    requires p.monthlyContribution == 0.0 && m <= |z|
    ensures ValueAfter(p.(initialAmount := c * p.initialAmount), rootTwelve, z, m)
            == c * ValueAfter(p, rootTwelve, z, m)
  {
    if m > 0 {
      ScaleInitialAmount(p, c, rootTwelve, z, m - 1);
      var q := p.(initialAmount := c * p.initialAmount);
      assert MonthlyReturn(q, rootTwelve, z[m - 1]) == MonthlyReturn(p, rootTwelve, z[m - 1]);
    }
  }
}
