/** The plan page: reached with the income-form payload in router state, it
    estimates expenses as 70% of income and offers the investment pages only
    when something is left over. */
module FinancialPlan {
  import opened Prelude
  import opened Navigation
  import FinancialSummary
  import TaxLoopholes

  /** `calculateExpenses`. */
  function PlanExpenses(income: real): (r: int)
    ensures income * 0.7 - 0.5 < r as real <= income * 0.7 + 0.5
  {
    Round(income * 0.7)
  }

  datatype PlanPage =
    | Redirect(to: Route)
    | Plan(formData: FormData, totalExpenses: int, remainingIncome: real,
           investmentsLink: Option<Route>)

  /** The page for the router state it was given. */
  function PlanOf(state: Option<FormData>): (page: PlanPage)
    ensures state.None? <==> page == Redirect(Home)
    ensures state.Some? ==>
      (page.Plan? && page.formData == state.value
       && page.totalExpenses == PlanExpenses(state.value.income)
       && page.remainingIncome + page.totalExpenses as real == state.value.income)
    ensures page.Plan? ==>
      (page.investmentsLink.Some? <==> page.remainingIncome > 0.0)
      && (page.investmentsLink.Some? ==>
            page.investmentsLink.value == InvestmentsPage(InvestmentState(page.remainingIncome, page.formData)))
  {
    match state
    case None => Redirect(Home)
    case Some(fd) =>
      var total := PlanExpenses(fd.income);
      var remaining := fd.income - total as real;
      Plan(fd, total, remaining,
           if remaining > 0.0 then Some(InvestmentsPage(InvestmentState(remaining, fd))) else None)
  }

  /** Any monthly income above five thirds of a pound leaves money over, so
      the investment offer is shown; a zero income never shows it. */
  lemma InvestmentsShownFor(fd: FormData)
    ensures fd.income > 5.0 / 3.0 ==> PlanOf(Some(fd)).investmentsLink.Some?
    ensures fd.income == 0.0 ==> PlanOf(Some(fd)).investmentsLink.None?
  {
  }

  /** The remaining income the page passes on is within half a pound of 30%
      of income. */
  lemma RemainingNearThirtyPercent(fd: FormData)
    ensures var r := PlanOf(Some(fd)).remainingIncome;
      fd.income * 0.3 - 0.5 <= r < fd.income * 0.3 + 0.5
  {
  }

  /** The page gives the summary card no applied strategies and a remaining
      income consistent with its expenses, so the card's adjusted figures
      are the page's own and its strategy savings are zero. */
  lemma SummaryAgreesWithPlan(fd: FormData)
    requires fd.income != 0.0
    ensures var page := PlanOf(Some(fd));
      var s := FinancialSummary.SummaryOf(fd.income, page.totalExpenses as real, page.remainingIncome, []);
      s.adjustedRemainingIncome == page.remainingIncome
      && s.savingsRate == s.adjustedSavingsRate
      && s.loopholeSavings == 0.0 && s.exploreTaxTip
      && (fd.income >= 0.0 ==> s.netBenefit.None?)
  {
    var page := PlanOf(Some(fd));
    FinancialSummary.ConsistentRemaining(fd.income, page.totalExpenses as real, page.remainingIncome);
  }
}
