/** The suggested monthly investment split: five products with fixed
    allocations of the income left over, each amount rounded to pounds. */
module InvestmentRecommendations {
  import opened Prelude

  datatype Risk = Low | Medium | High

  /** An option of the card; description and icon are display only. */
  datatype InvestmentOption = InvestmentOption(name: string, allocation: real, amount: int,
                                               risk: Risk, timeHorizon: string, expectedReturn: string)

  const Allocations: seq<real> := [25.0, 30.0, 20.0, 15.0, 10.0]

  /** The unrounded amount of each option. */
  function Shares(remainingIncome: real): (r: seq<real>)
    ensures |r| == 5
    ensures forall i :: 0 <= i < 5 ==> r[i] == remainingIncome * Allocations[i] / 100.0
  {
    [remainingIncome * 0.25, remainingIncome * 0.30, remainingIncome * 0.20,
     remainingIncome * 0.15, remainingIncome * 0.10]
  }

  /** The `investments` array. */
  function Recommendations(remainingIncome: real): (r: seq<InvestmentOption>)
    ensures |r| == 5
    ensures forall i :: 0 <= i < 5 ==>
      r[i].allocation == Allocations[i] && r[i].amount == Round(remainingIncome * Allocations[i] / 100.0)
  {
    var s := Shares(remainingIncome);
    [InvestmentOption("Emergency Fund (ISA)", 25.0, Round(s[0]), Low, "Immediate access", "2-4% annually"),
     InvestmentOption("S&P 500 Index Fund", 30.0, Round(s[1]), Medium, "5+ years", "7-10% annually"),
     InvestmentOption("Stocks & ETFs", 20.0, Round(s[2]), High, "3+ years", "5-15% annually"),
     InvestmentOption("Pension Contribution", 15.0, Round(s[3]), Low, "Retirement", "6-8% annually"),
     InvestmentOption("Bonds & Fixed Income", 10.0, Round(s[4]), Low, "1-5 years", "3-6% annually")]
  }

  function AmountsOf(options: seq<InvestmentOption>): (r: seq<real>)
    ensures |r| == |options|
    ensures forall i :: 0 <= i < |options| ==> r[i] == options[i].amount as real
  {
    seq(|options|, i requires 0 <= i < |options| => options[i].amount as real)
  }

  lemma {:induction false} SumOfFive(a: seq<real>)
    requires |a| == 5
    ensures Sum(a) == a[0] + a[1] + a[2] + a[3] + a[4]
  {
    assert a[..4][..3] == a[..3] && a[..3][..2] == a[..2] && a[..2][..1] == a[..1] && a[..1][..0] == [];
    assert Sum(a[..1]) == a[0];
    assert Sum(a[..2]) == Sum(a[..1]) + a[1];
    assert Sum(a[..3]) == Sum(a[..2]) + a[2];
    assert Sum(a[..4]) == Sum(a[..3]) + a[3];
  }

  /** The allocations cover the whole of what is left. */
  lemma AllocationsTotal()
    ensures Sum(Allocations) == 100.0
  {
    SumOfFive(Allocations);
  }

  /** The five rounded amounts add up to the remaining income, give or take
      half a pound per amount. */
  lemma AmountsNearRemaining(remainingIncome: real)
    ensures var total := Sum(AmountsOf(Recommendations(remainingIncome)));
      remainingIncome - 2.5 <= total <= remainingIncome + 2.5
  {
    var shares := Shares(remainingIncome);
    assert AmountsOf(Recommendations(remainingIncome)) == RoundAll(shares);
    SumOfRoundedWithin(shares);
    SumOfFive(shares);
  }

  /** `getRiskColor`. */
  function RiskColor(risk: string): (c: string)
    ensures risk == "Low" <==> c == "bg-finance-green"
    ensures risk == "Medium" <==> c == "bg-warning"
    ensures risk == "High" <==> c == "bg-expense-red"
    ensures risk !in {"Low", "Medium", "High"} <==> c == "bg-muted"
  {
    if risk == "Low" then "bg-finance-green"
    else if risk == "Medium" then "bg-warning"
    else if risk == "High" then "bg-expense-red"
    else "bg-muted"
  }

  function RiskName(r: Risk): string
  {
    match r
    case Low => "Low"
    case Medium => "Medium"
    case High => "High"
  }

  /** No option of the card falls back to the muted colour. */
  lemma EveryOptionColoured(remainingIncome: real)
    ensures forall i :: 0 <= i < 5 ==>
      RiskColor(RiskName(Recommendations(remainingIncome)[i].risk)) != "bg-muted"
  {
  }
}
