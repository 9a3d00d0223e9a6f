/** The investments page: it stores the state it was navigated with under
    `investmentState`, falls back to that stored state when it arrives
    without one, and sends the visitor home when there is neither. */
module Investments {
  import opened Prelude
  import opened Navigation

  datatype Outcome = Shown(state: InvestmentState) | Redirected(path: string)

  /** Whether a number is truthy: present and not zero. */
  predicate IncomeTruthy(remainingIncome: Option<real>)
  {
    remainingIncome.Some? && remainingIncome.value != 0.0
  }

  /** The route state, when both of its parts are truthy. */
  function Provided(remainingIncome: Option<real>, formData: Option<FormData>): (p: Option<InvestmentState>)
    ensures p.Some? <==> IncomeTruthy(remainingIncome) && formData.Some?
    ensures p.Some? ==> p.value == InvestmentState(remainingIncome.value, formData.value)
  {
    if IncomeTruthy(remainingIncome) && formData.Some? then
      Some(InvestmentState(remainingIncome.value, formData.value))
    else None
  }

  /** What the page shows, given the route state and the stored state. */
  function OutcomeOf(remainingIncome: Option<real>, formData: Option<FormData>, saved: Option<InvestmentState>): (o: Outcome)
    ensures Provided(remainingIncome, formData).Some? ==> o == Shown(Provided(remainingIncome, formData).value)
    ensures Provided(remainingIncome, formData).None? && saved.Some? ==> o == Shown(saved.value)
    ensures o.Redirected? <==> Provided(remainingIncome, formData).None? && saved.None?
    ensures o.Redirected? ==> o.path == "/"
  {
    match Provided(remainingIncome, formData)
    case Some(state) => Shown(state)
    case None => if saved.Some? then Shown(saved.value) else Redirected("/")
  }

  /** The stored state after the page has rendered. */
  function StoredAfter(remainingIncome: Option<real>, formData: Option<FormData>, saved: Option<InvestmentState>): (r: Option<InvestmentState>)
    ensures Provided(remainingIncome, formData).Some? ==> r == Provided(remainingIncome, formData)
    ensures Provided(remainingIncome, formData).None? ==> r == saved
  {
    if Provided(remainingIncome, formData).Some? then Provided(remainingIncome, formData) else saved
  }

  /** A remaining income of 0 counts as missing: the page ignores the route
      state, stores nothing, and shows what was stored before, or goes home. */
  lemma ZeroIncomeIgnored(formData: FormData, saved: Option<InvestmentState>)
    ensures StoredAfter(Some(0.0), Some(formData), saved) == saved
    ensures saved.Some? ==> OutcomeOf(Some(0.0), Some(formData), saved) == Shown(saved.value)
    ensures saved.None? ==> OutcomeOf(Some(0.0), Some(formData), saved) == Redirected("/")
  {
  }

  /** Whatever the page showed, coming back to it later without route state
      (a reload, or navigating back to it) shows the same thing again. */
  lemma ReturnShowsSame(remainingIncome: Option<real>, formData: Option<FormData>, saved: Option<InvestmentState>)
    requires OutcomeOf(remainingIncome, formData, saved).Shown?
    ensures OutcomeOf(None, None, StoredAfter(remainingIncome, formData, saved)) == OutcomeOf(remainingIncome, formData, saved)
  {
  }

  /** `localStorage`, as far as this page uses it. */
  class Storage {
    var investmentState: Option<InvestmentState>

    constructor(saved: Option<InvestmentState>)
      ensures investmentState == saved
    {
      investmentState := saved;
    }
  }

  /** One render of the page: write the route state when it is complete,
      otherwise read the stored state back, otherwise navigate home and
      render nothing. */
  method Render(storage: Storage, remainingIncome: Option<real>, formData: Option<FormData>) returns (o: Outcome)
    modifies storage
    ensures o == OutcomeOf(remainingIncome, formData, old(storage.investmentState))
    ensures storage.investmentState == StoredAfter(remainingIncome, formData, old(storage.investmentState))
  {
    if IncomeTruthy(remainingIncome) && formData.Some? {
      storage.investmentState := Some(InvestmentState(remainingIncome.value, formData.value));
    }
    var currentRemainingIncome := remainingIncome;
    var currentFormData := formData;
    if !IncomeTruthy(remainingIncome) || formData.None? {
      var savedState := storage.investmentState;
      if savedState.Some? {
        currentRemainingIncome := Some(savedState.value.remainingIncome);
        currentFormData := Some(savedState.value.formData);
      } else {
        return Redirected("/");
      }
    }
    o := Shown(InvestmentState(currentRemainingIncome.value, currentFormData.value));
  }
}
