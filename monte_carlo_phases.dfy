/** The phased projection: the same engine run over one of three consecutive
    windows of a ten-year plan, with snapshots labelled by calendar year of the
    plan rather than from zero. */
module MonteCarloPhases {
  import opened Prelude
  import opened Sorting
  import opened MonteCarloSimulation

  datatype Phase = One | Two | Three

  datatype PhaseConfig = PhaseConfig(years: nat, title: string, startYear: int)

  /** `phaseConfig[phase]`, with the missing `startYear` of phase 1 read as 0. */
  function ConfigOf(phase: Phase): (c: PhaseConfig)
    ensures c.years >= 1
    ensures phase == One <==> c.startYear == 0
  {
    match phase
    case One => PhaseConfig(1, "Phase 1: Year 1", 0)
    case Two => PhaseConfig(4, "Phase 2: Years 2-5", 1)
    case Three => PhaseConfig(5, "Phase 3: Years 6-10", 5)
  }

  function EndYear(phase: Phase): int
  {
    ConfigOf(phase).startYear + ConfigOf(phase).years
  }

  /** The three windows tile the ten-year plan: each starts where the previous
      one ends, the first at year 0 and the last ends at year 10. */
  lemma PhasesTileTenYears()
    ensures ConfigOf(One).startYear == 0
    ensures ConfigOf(Two).startYear == EndYear(One)
    ensures ConfigOf(Three).startYear == EndYear(Two)
    ensures EndYear(Three) == 10
    ensures ConfigOf(One).years + ConfigOf(Two).years + ConfigOf(Three).years == 10
  {
  }

  function PhaseParams(phase: Phase, initialAmount: real, monthlyContribution: real,
                       expectedReturn: real, volatility: real): (p: Params)
    ensures p.years == ConfigOf(phase).years
  {
    Params(initialAmount, monthlyContribution, expectedReturn, volatility, ConfigOf(phase).years)
  }

  /** `monthlyContribution * years * 12`, shown as the period's contributions. */
  function PeriodContributions(p: Params): (r: real)
    ensures r == TotalContributions(p) - p.initialAmount
  {
    p.monthlyContribution * p.years as real * 12.0
  }

  /** The phase component: 1000 trajectories over the phase window, the key
      statistics of the final values, and one chart row per calendar year of
      the window whose cells are the trajectories' snapshots of that year. */
  method ProjectPhase(phase: Phase, initialAmount: real, monthlyContribution: real,
                      expectedReturn: real, volatility: real, rootTwelve: real, zs: seq<seq<real>>)
    returns (results: seq<SimResult>, stats: Bands, chart: seq<ChartRow>)
    requires volatility != 0.0 && rootTwelve > 0.0
    requires |zs| == DefaultSimulations
    requires forall s :: 0 <= s < |zs| ==> |zs[s]| == ConfigOf(phase).years * 12
    ensures |results| == DefaultSimulations
    ensures forall s :: 0 <= s < |results| ==>
      |results[s].yearlyValues| == ConfigOf(phase).years + 1
      && results[s].yearlyValues[0] == Snapshot(ConfigOf(phase).startYear, initialAmount)
      && results[s].yearlyValues[ConfigOf(phase).years].year == EndYear(phase)
    ensures stats == FinalPercentiles(results)
    ensures stats.p10 <= stats.p25 <= stats.p50 <= stats.p75 <= stats.p90
    ensures |chart| == ConfigOf(phase).years + 1
    ensures forall k :: 0 <= k <= ConfigOf(phase).years ==> chart[k] == RowOf(results, ConfigOf(phase).startYear + k)
    ensures chart[0].year == ConfigOf(phase).startYear && chart[|chart| - 1].year == EndYear(phase)
    ensures forall k: nat, s :: k <= ConfigOf(phase).years && 0 <= s < |zs| ==>
      YearColumn(results, ConfigOf(phase).startYear + k)[s]
        == YearSnapshot(PhaseParams(phase, initialAmount, monthlyContribution, expectedReturn, volatility),
                        ConfigOf(phase).startYear, rootTwelve, zs[s], k).value
  {
    var config := ConfigOf(phase);
    var p := PhaseParams(phase, initialAmount, monthlyContribution, expectedReturn, volatility);
    assert p.years == config.years && p.volatility == volatility && p.initialAmount == initialAmount;
    results, stats, chart := Project(p, config.startYear, rootTwelve, zs);
    forall k: nat, s | k <= config.years && 0 <= s < |zs|
      ensures YearColumn(results, config.startYear + k)[s] == YearSnapshot(p, config.startYear, rootTwelve, zs[s], k).value
    {
    }
  }
}
