/** The simple expense card: seven fixed categories, two of them scaled by a
    multiplier read from the first letters of the postcode, with their total
    and the income left over. */
module ExpenseBreakdown {
  import opened Prelude

  /** An entry of the card; the icon and the description text are display only. */
  datatype Item = Item(category: string, amount: real, percentage: real)

  const Categories: seq<string> :=
    ["Transport", "Car Costs", "Subscriptions", "Shopping", "Outings & Social", "Vacations", "Maintenance"]

  /** `locationMultiplier`: SW or W postcodes 1.3, E or SE postcodes 1.1, anything else 1.0. */
  function LocationMultiplier(postcode: string): (m: real)
    ensures m == 1.3 <==> StartsWith(postcode, "SW") || StartsWith(postcode, "W")
    ensures m == 1.1 <==> !StartsWith(postcode, "SW") && !StartsWith(postcode, "W")
                          && (StartsWith(postcode, "E") || StartsWith(postcode, "SE"))
    ensures m == 1.0 || m == 1.1 || m == 1.3
  {
    if StartsWith(postcode, "SW") || StartsWith(postcode, "W") then 1.3
    else if StartsWith(postcode, "E") || StartsWith(postcode, "SE") then 1.1
    else 1.0
  }

  /** The unrounded monthly amount of each category. */
  function BaseAmounts(income: real, m: real): seq<real>
  {
    [income * 0.15 * m, income * 0.12 * m, income * 0.08, income * 0.20, income * 0.12, income * 0.05, income * 0.03]
  }

  function Percentages(m: real): seq<real>
  {
    [15.0 * m, 12.0 * m, 8.0, 20.0, 12.0, 5.0, 3.0]
  }

  /** The `expenses` array of the card. */
  function Expenses(income: real, postcode: string): (items: seq<Item>)
    ensures |items| == 7
    ensures forall i :: 0 <= i < 7 ==> items[i].category == Categories[i]
    ensures Amounts(items) == RoundAll(BaseAmounts(income, LocationMultiplier(postcode)))
  {
    var m := LocationMultiplier(postcode);
    var amounts := RoundAll(BaseAmounts(income, m));
    var percentages := Percentages(m);
    seq(7, i requires 0 <= i < 7 => Item(Categories[i], amounts[i], percentages[i]))
  }

  function Amounts(items: seq<Item>): (r: seq<real>)
    ensures |r| == |items|
    ensures forall i :: 0 <= i < |items| ==> r[i] == items[i].amount
  {
    seq(|items|, i requires 0 <= i < |items| => items[i].amount)
  }

  /** `expenses.reduce((sum, e) => sum + e.amount, 0)`. */
  function TotalExpenses(items: seq<Item>): (r: real)
    ensures (forall i :: 0 <= i < |items| ==> items[i].amount >= 0.0)
            ==> r >= 0.0 && forall i :: 0 <= i < |items| ==> items[i].amount <= r
  {
    SumNonNegative(Amounts(items));
    Sum(Amounts(items))
  }

  /** `income - totalExpenses`. */
  function RemainingIncome(income: real, postcode: string): (r: real)
    ensures r + TotalExpenses(Expenses(income, postcode)) == income
  {
    income - TotalExpenses(Expenses(income, postcode))
  }

  /** Only transport and car costs depend on the postcode. */
  lemma OnlyTransportAndCarVary(income: real, p1: string, p2: string)
    ensures forall i :: 2 <= i < 7 ==> Expenses(income, p1)[i] == Expenses(income, p2)[i]
  {
  }

  lemma {:induction false} SumOfSeven(a: seq<real>)
    requires |a| == 7
    ensures Sum(a) == a[0] + a[1] + a[2] + a[3] + a[4] + a[5] + a[6]
  {
    assert a[..6][..5] == a[..5] && a[..5][..4] == a[..4] && a[..4][..3] == a[..3];
    assert a[..3][..2] == a[..2] && a[..2][..1] == a[..1] && a[..1][..0] == [];
    assert Sum(a[..1]) == a[0];
    assert Sum(a[..2]) == Sum(a[..1]) + a[1];
    assert Sum(a[..3]) == Sum(a[..2]) + a[2];
    assert Sum(a[..4]) == Sum(a[..3]) + a[3];
    assert Sum(a[..5]) == Sum(a[..4]) + a[4];
    assert Sum(a[..6]) == Sum(a[..5]) + a[5];
  }

  /** The percentages add up to 48 + 27m, so to 75 with the neutral multiplier. */
  lemma PercentagesTotal(postcode: string)
    ensures Sum(Percentages(LocationMultiplier(postcode))) == 48.0 + 27.0 * LocationMultiplier(postcode)
    ensures LocationMultiplier(postcode) == 1.0 ==> Sum(Percentages(1.0)) == 75.0
  {
    SumOfSeven(Percentages(LocationMultiplier(postcode)));
    SumOfSeven(Percentages(1.0));
  }

  /** The total is the income times 0.48 + 0.27m, up to the seven roundings. */
  lemma TotalNearShare(income: real, postcode: string)
    ensures var m := LocationMultiplier(postcode);
      var total := TotalExpenses(Expenses(income, postcode));
      income * (0.48 + 0.27 * m) - 3.5 <= total <= income * (0.48 + 0.27 * m) + 3.5
  {
    var m := LocationMultiplier(postcode);
    var bases := BaseAmounts(income, m);
    SumOfSeven(bases);
    SumOfRoundedWithin(bases);
  }
}
