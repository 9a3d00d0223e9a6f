/** The financial-health card: expense and savings rates, the savings of the
    applied tax strategies, an inflation estimate, a health rating and the
    tips and rows shown conditionally. */
module FinancialSummary {
  import opened Prelude
  import opened TaxLoopholes

  datatype Health = Excellent | Good | Fair | NeedsImprovement

  /** `(part / income) * 100`. */
  function Rate(part: real, income: real): (r: real)
    requires income != 0.0
    ensures r * income == part * 100.0
  {
    (part / income) * 100.0
  }

  /** `getHealthStatus` on the adjusted savings rate. */
  function HealthOf(savingsRate: real): (h: Health)
    ensures h == Excellent <==> savingsRate >= 20.0
    ensures h == Good <==> 10.0 <= savingsRate < 20.0
    ensures h == Fair <==> 5.0 <= savingsRate < 10.0
    ensures h == NeedsImprovement <==> savingsRate < 5.0
  {
    if savingsRate >= 20.0 then Excellent
    else if savingsRate >= 10.0 then Good
    else if savingsRate >= 5.0 then Fair
    else NeedsImprovement
  }

  function Rank(h: Health): nat
  {
    match h
    case NeedsImprovement => 0
    case Fair => 1
    case Good => 2
    case Excellent => 3
  }

  /** A higher savings rate never gives a worse rating. */
  lemma HealthMonotone(rate: real, rate': real)
    requires rate <= rate'
    ensures Rank(HealthOf(rate)) <= Rank(HealthOf(rate'))
  {
  }

  /** Everything the card computes from its props. */
  datatype Summary = Summary(
    savingsRate: real,
    expenseRate: real,
    loopholeSavings: real,
    inflationImpact: real,
    originalExpenses: real,
    adjustedExpenses: real,
    adjustedRemainingIncome: real,
    adjustedSavingsRate: real,
    health: Health,
    netBenefit: Option<int>,
    aimForTwentyTip: bool,
    cutSubscriptionsTip: bool,
    exploreTaxTip: bool)

  /** The card for the props `income`, `totalExpenses`, `remainingIncome`
      and `appliedLoopholes`. */
  function SummaryOf(income: real, totalExpenses: real, remainingIncome: real,
                     applied: seq<Loophole>): (s: Summary)
    requires income != 0.0
    ensures s.savingsRate * income == remainingIncome * 100.0
    ensures s.expenseRate * income == totalExpenses * 100.0
    ensures s.loopholeSavings == Sum(Savings(applied))
    ensures s.inflationImpact == totalExpenses * 0.025
    ensures s.originalExpenses == totalExpenses + s.loopholeSavings
    ensures s.adjustedExpenses == totalExpenses
    ensures s.adjustedRemainingIncome + totalExpenses == income
    ensures s.adjustedSavingsRate * income == s.adjustedRemainingIncome * 100.0
    ensures s.health == HealthOf(s.adjustedSavingsRate)
    ensures s.netBenefit.Some? <==> (s.loopholeSavings > 0.0 || s.inflationImpact > 0.0)
                                    && s.loopholeSavings > s.inflationImpact
    ensures s.netBenefit.Some? ==> s.netBenefit.value == Round(s.loopholeSavings - s.inflationImpact / 12.0)
    ensures s.aimForTwentyTip <==> s.adjustedSavingsRate < 20.0
    ensures s.cutSubscriptionsTip <==> s.adjustedSavingsRate < 10.0
    ensures s.exploreTaxTip <==> s.loopholeSavings == 0.0
  {
    var savings := Sum(Savings(applied));
    var inflation := totalExpenses * 0.025;
    var adjustedRemaining := income - totalExpenses;
    var adjustedRate := Rate(adjustedRemaining, income);
    Summary(
      Rate(remainingIncome, income),
      Rate(totalExpenses, income),
      savings,
      inflation,
      totalExpenses + savings,
      totalExpenses,
      adjustedRemaining,
      adjustedRate,
      HealthOf(adjustedRate),
      if (savings > 0.0 || inflation > 0.0) && savings > inflation then Some(Round(savings - inflation / 12.0)) else None,
      adjustedRate < 20.0,
      adjustedRate < 10.0,
      savings == 0.0)
  }

  /** Rendering the card with the `appliedLoopholes` prop given or left out
      (`None`): without it, `appliedLoopholes.reduce` throws a `TypeError`
      and there is no card. */
  function Render(income: real, totalExpenses: real, remainingIncome: real,
                  applied: Option<seq<Loophole>>): (r: Option<Summary>)
    requires income != 0.0
    ensures r.Some? <==> applied.Some?
    ensures applied.Some? ==> r == Some(SummaryOf(income, totalExpenses, remainingIncome, applied.value))
  {
    match applied
    case None => None
    case Some(list) => Some(SummaryOf(income, totalExpenses, remainingIncome, list))
  }

  /** A page that passes `income - totalExpenses` as the remaining income and
      applies no strategies gets a card whose two savings rates agree, whose
      adjusted remaining income is that remaining income, and whose original
      expenses are the expenses. */
  lemma ConsistentRemaining(income: real, totalExpenses: real, remainingIncome: real)
    requires income != 0.0 && remainingIncome == income - totalExpenses
    ensures var s := SummaryOf(income, totalExpenses, remainingIncome, []);
      s.savingsRate == s.adjustedSavingsRate && s.adjustedRemainingIncome == remainingIncome
      && s.loopholeSavings == 0.0 && s.originalExpenses == totalExpenses && s.exploreTaxTip
  {
    var s := SummaryOf(income, totalExpenses, remainingIncome, []);
    assert Savings([]) == [];
    assert s.savingsRate * income == s.adjustedSavingsRate * income;
    assert (s.savingsRate - s.adjustedSavingsRate) * income == 0.0;
  }

  /** The adjusted figures do not depend on the `remainingIncome` prop: two
      cards that differ only there agree on everything but the unadjusted
      savings rate. */
  lemma RemainingPropIgnored(income: real, totalExpenses: real, r1: real, r2: real, applied: seq<Loophole>)
    requires income != 0.0
    ensures var a, b := SummaryOf(income, totalExpenses, r1, applied), SummaryOf(income, totalExpenses, r2, applied);
      a.(savingsRate := 0.0) == b.(savingsRate := 0.0)
  {
  }

  /** The adjusted savings and expense rates add up to 100. */
  lemma RatesComplement(income: real, totalExpenses: real, remainingIncome: real, applied: seq<Loophole>)
    requires income != 0.0
    ensures var s := SummaryOf(income, totalExpenses, remainingIncome, applied);
      s.adjustedSavingsRate + s.expenseRate == 100.0
  {
    var s := SummaryOf(income, totalExpenses, remainingIncome, applied);
    var x := s.adjustedSavingsRate + s.expenseRate;
    assert s.adjustedSavingsRate * income == (income - totalExpenses) * 100.0;
    assert s.expenseRate * income == totalExpenses * 100.0;
    assert x * income == s.adjustedSavingsRate * income + s.expenseRate * income;
    assert (x - 100.0) * income == 0.0;
  }

  /** The tips and the rating tell the same story: the 20% tip appears
      exactly when the rating is below Excellent, and the subscriptions tip
      only together with it, exactly when the rating is Fair or worse. */
  lemma TipsAgreeWithHealth(income: real, totalExpenses: real, remainingIncome: real, applied: seq<Loophole>)
    requires income != 0.0
    ensures var s := SummaryOf(income, totalExpenses, remainingIncome, applied);
      (s.aimForTwentyTip <==> s.health != Excellent)
      && (s.cutSubscriptionsTip ==> s.aimForTwentyTip)
      && (s.cutSubscriptionsTip <==> Rank(s.health) <= 1)
  {
  }

  /** With non-negative expenses, the impact panel's guard adds nothing to
      the net benefit row's own, and the row, when shown, never shows a
      loss. */
  lemma NetBenefitNotNegative(income: real, totalExpenses: real, remainingIncome: real, applied: seq<Loophole>)
    requires income != 0.0 && totalExpenses >= 0.0
    ensures var s := SummaryOf(income, totalExpenses, remainingIncome, applied);
      (s.netBenefit.Some? <==> s.loopholeSavings > s.inflationImpact)
      && (s.netBenefit.Some? ==> s.netBenefit.value >= 0)
  {
  }

  /** The card fed with the strategies the dialog applies shows the dialog's
      total as its savings. */
  lemma AppliedSavingsMatchDialog(income: real, totalExpenses: real, remainingIncome: real, selected: seq<string>)
    requires income != 0.0
    ensures SummaryOf(income, totalExpenses, remainingIncome, SelectedEntries(selected)).loopholeSavings
            == TotalSavings(selected)
    ensures 0.0 <= SummaryOf(income, totalExpenses, remainingIncome, SelectedEntries(selected)).loopholeSavings <= 1151.0
  {
    TotalSavingsBounds(selected);
  }
}
