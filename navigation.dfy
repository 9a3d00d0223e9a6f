/** The records pages hand to each other through router state and browser
    storage: the income-form payload and the saved investment state. */
module Navigation {
  import opened Prelude

  /** The payload `IncomeForm` submits and the pages pass on as `formData`. */
  datatype FormData = FormData(
    postcode: string,
    city: string,
    workplacePostcode: string,
    workplaceCity: string,
    income: real,
    hasHousing: bool,
    hasRoommates: bool,
    numRoommates: int)

  /** `{ remainingIncome, formData }`, as the plan page sends it to the
      investments page and the investments page saves it under `investmentState`. */
  datatype InvestmentState = InvestmentState(remainingIncome: real, formData: FormData)

  /** A navigation the page asks the router for. */
  datatype Route = Home | InvestmentsPage(state: InvestmentState)

  /** A feedback note, as the feedback page stores it under `userFeedback`. */
  datatype FeedbackPoint = FeedbackPoint(id: string, text: string, timestamp: int)

  /** Where a Back or Cancel button leads: a path, or the investments page
      together with the state it needs. */
  datatype Destination = Path(path: string) | PathWithState(pathname: string, state: InvestmentState)

  /** `getReferrer`: back to the investments page with its saved state when
      the page was opened from there and the state was saved; otherwise to
      `from`, or to `fallback` when `from` is missing or empty. */
  function Referrer(from: Option<string>, saved: Option<InvestmentState>, fallback: string): (d: Destination)
    ensures d.PathWithState? <==> from == Some("/investments") && saved.Some?
    ensures d.PathWithState? ==> d == PathWithState("/investments", saved.value)
    ensures d.Path? && from.Some? && from.value != "" ==> d.path == from.value
    ensures from.None? || from == Some("") ==> d == Path(fallback)
  {
    if from == Some("/investments") && saved.Some? then PathWithState("/investments", saved.value)
    else if from.Some? && from.value != "" then Path(from.value)
    else Path(fallback)
  }
}
