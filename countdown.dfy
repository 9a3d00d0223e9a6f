/** The countdown page shown between the form and the results: two lines of
    text, a five-second countdown with a progress bar, and the navigation
    back to the home page with the form data when it reaches zero. */
module Countdown {
  import opened Prelude
  import opened Navigation

  const Start: int := 5

  /** `navigate("/", { state: { formData, showResults: true } })`. */
  datatype ResultsNavigation = ShowResults(formData: Option<FormData>)

  /** The updater passed to `setCountdown` on each tick: the value it
      returns, and whether it navigates (and clears the interval). */
  function TickValue(prev: int): (next: int)
    ensures prev <= 1 ==> next == 0
    ensures prev > 1 ==> next == prev - 1 && next >= 1
  {
    if prev <= 1 then 0 else prev - 1
  }

  predicate TickNavigates(prev: int)
  {
    prev <= 1
  }

  /** The count after `k` ticks from the start. */
  function AfterTicks(k: nat): int
  {
    if k == 0 then Start else TickValue(AfterTicks(k - 1))
  }

  /** Counting down from 5, the first four ticks count (to 4, 3, 2 and 1)
      and only the fifth navigates, leaving 0; after it the interval is
      cleared and no tick follows. */
  lemma {:induction false} FifthTickNavigates(k: nat)
    requires k <= 4
    ensures AfterTicks(k) == Start - k
    ensures TickNavigates(AfterTicks(k)) <==> k == 4
    ensures k == 4 ==> TickValue(AfterTicks(k)) == 0
  {
    if k > 0 {
      FifthTickNavigates(k - 1);
    }
  }

  /** The width of the progress bar, as a percentage. */
  function Progress(countdown: int): (p: real)
    ensures countdown == Start ==> p == 0.0
    ensures countdown == 0 ==> p == 100.0
    ensures 0 <= countdown <= Start ==> 0.0 <= p <= 100.0
  {
    ((5 - countdown) as real / 5.0) * 100.0
  }

  /** Each tick that counts down moves the bar forward by a fifth. */
  lemma TickAdvancesProgress(prev: int)
    requires prev > 1
    ensures Progress(TickValue(prev)) == Progress(prev) + 20.0
  {
  }

  class Page {
    var countdown: int
    var showFirstText: bool
    var showSecondText: bool
    /** Whether the one-second interval is still set. */
    var ticking: bool
    const formData: Option<FormData>
    /** The navigations the page has asked for. */
    var navigations: seq<ResultsNavigation>

    /** While ticking the count is between 1 and 5 and nothing has
        navigated; once the interval is cleared the count is 0 and exactly
        one navigation has happened. */
    ghost predicate Valid()
      reads this
    {
      (ticking ==> 1 <= countdown <= Start && navigations == [])
      && (!ticking ==> countdown == 0 && navigations == [ShowResults(formData)])
    }

    /** Mounting: the count starts at 5, the first line shows at once, the
        second waits for its timer, and the interval starts. */
    constructor(formData: Option<FormData>)
      ensures countdown == Start && showFirstText && !showSecondText && ticking
      ensures this.formData == formData && navigations == []
      ensures Valid()
    {
      countdown := Start;
      showFirstText := true;
      showSecondText := false;
      ticking := true;
      this.formData := formData;
      navigations := [];
    }

    /** The one-second timeout. */
    method ShowSecondText()
      modifies this
      ensures showSecondText && showFirstText == old(showFirstText)
      ensures countdown == old(countdown) && ticking == old(ticking) && navigations == old(navigations)
    {
      showSecondText := true;
    }

    /** One interval tick; ticks only arrive while the interval is set. */
    method Tick()
      requires Valid() && ticking
      modifies this
      ensures countdown == TickValue(old(countdown))
      ensures TickNavigates(old(countdown)) ==> !ticking && navigations == old(navigations) + [ShowResults(formData)]
      ensures !TickNavigates(old(countdown)) ==> ticking && navigations == old(navigations)
      ensures showFirstText == old(showFirstText) && showSecondText == old(showSecondText)
      ensures Valid()
    {
      if countdown <= 1 {
        ticking := false;
        navigations := navigations + [ShowResults(formData)];
        countdown := 0;
      } else {
        countdown := countdown - 1;
      }
    }
  }
}
