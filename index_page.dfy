/** The landing page: the income form until it is submitted, then the plan
    view for the submitted income, with a rough expense estimate. As written
    the plan view cannot render: its summary card is given no list of
    applied tax strategies and fails on it (`Page.PlanCardAsWritten`); the
    card it evidently means is `Page.PlanCard`. */
module IndexPage {
  import opened Prelude
  import opened Navigation
  import ExpenseBreakdown
  import FinancialSummary
  import TaxLoopholes

  /** The rough estimate: three quarters of income, scaled by the postcode
      multiplier of the expense card, rounded to whole pounds. */
  function EstimatedExpenses(data: FormData): (r: int)
    ensures var m := ExpenseBreakdown.LocationMultiplier(data.postcode);
      data.income * 0.75 * m - 0.5 < r as real <= data.income * 0.75 * m + 0.5
  {
    Round(data.income * (0.75 * ExpenseBreakdown.LocationMultiplier(data.postcode)))
  }

  /** The `appliedLoopholes` prop the plan view passes to the summary card:
      none, as the prop is left out. */
  const PlanAppliedLoopholes: Option<seq<TaxLoopholes.Loophole>> := None

  class Page {
    var formData: Option<FormData>
    var totalExpenses: int

    constructor()
      ensures formData == None && totalExpenses == 0
    {
      formData := None;
      totalExpenses := 0;
    }

    /** The form is shown exactly while nothing has been submitted. */
    predicate ShowsForm()
      reads this
    {
      formData.None?
    }

    /** `remainingIncome`: income less the estimate once submitted, 0 before. */
    function RemainingIncome(): (r: real)
      reads this
      ensures formData.None? ==> r == 0.0
      ensures formData.Some? ==> r + totalExpenses as real == formData.value.income
    {
      if formData.Some? then formData.value.income - totalExpenses as real else 0.0
    }

    /** `handleFormSubmit`: keep the submitted data and its expense estimate. */
    method HandleFormSubmit(data: FormData)
      modifies this
      ensures formData == Some(data)
      ensures totalExpenses == EstimatedExpenses(data)
      ensures !ShowsForm()
      ensures RemainingIncome() == data.income - EstimatedExpenses(data) as real
    {
      formData := Some(data);
      totalExpenses := EstimatedExpenses(data);
    }

    /** The summary card of the plan view as written: the page passes no
        `appliedLoopholes`, so the card throws while rendering, and the plan
        view, its Start Over button included, never appears. */
    function PlanCardAsWritten(): (r: Option<FinancialSummary.Summary>)
      reads this
      requires formData.Some? && formData.value.income != 0.0
      ensures r.None?
    {
      FinancialSummary.Render(formData.value.income, totalExpenses as real, RemainingIncome(), PlanAppliedLoopholes)
    }

    /** The summary card as evidently intended: no strategies applied, the
        empty list the financial plan page passes. The card then repeats the
        page's figures. */
    function PlanCard(): (s: FinancialSummary.Summary)
      reads this
      requires formData.Some? && formData.value.income != 0.0
      ensures FinancialSummary.Render(formData.value.income, totalExpenses as real, RemainingIncome(), Some([])) == Some(s)
      ensures s.adjustedRemainingIncome == RemainingIncome() && s.savingsRate == s.adjustedSavingsRate
      ensures s.loopholeSavings == 0.0 && s.originalExpenses == totalExpenses as real && s.exploreTaxTip
      ensures s.expenseRate * formData.value.income == totalExpenses as real * 100.0
      ensures s.health == FinancialSummary.HealthOf(s.adjustedSavingsRate)
    {
      FinancialSummary.ConsistentRemaining(formData.value.income, totalExpenses as real, RemainingIncome());
      FinancialSummary.SummaryOf(formData.value.income, totalExpenses as real, RemainingIncome(), [])
    }

    /** Start Over: back to the form; the old estimate stays until the next
        submit. The button is part of the plan view, so as written it is
        never shown (`PlanCardAsWritten`). */
    method StartOver()
      modifies this
      ensures formData == None && totalExpenses == old(totalExpenses)
      ensures ShowsForm() && RemainingIncome() == 0.0
    {
      formData := None;
    }
  }

  /** What is left after the estimate is within half a pound of the
      unrounded share of income the estimate leaves. */
  lemma RemainingNearShare(data: FormData)
    ensures var share := data.income * (1.0 - 0.75 * ExpenseBreakdown.LocationMultiplier(data.postcode));
      share - 0.5 <= data.income - EstimatedExpenses(data) as real < share + 0.5
  {
    var m := ExpenseBreakdown.LocationMultiplier(data.postcode);
    assert data.income * (1.0 - 0.75 * m) == data.income - data.income * 0.75 * m;
  }

  /** At the base multiplier the page's estimate and the expense card's total
      are both rounded forms of three quarters of income, so they differ by
      at most four pounds. */
  lemma EstimateMatchesCardAtBaseRate(data: FormData)
    requires ExpenseBreakdown.LocationMultiplier(data.postcode) == 1.0
    ensures var card := ExpenseBreakdown.TotalExpenses(ExpenseBreakdown.Expenses(data.income, data.postcode));
      -4.0 <= EstimatedExpenses(data) as real - card <= 4.0
  {
    ExpenseBreakdown.TotalNearShare(data.income, data.postcode);
  }
}
