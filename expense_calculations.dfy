/** The detailed expense calculator: city and commute multipliers, UK income
    tax and National Insurance for 2024/25, housing split between flatmates,
    and the list of monthly expense entries with inflation applied to the
    price-sensitive categories. Incomes are monthly. */
module ExpenseCalculations {
  import opened Prelude

  datatype ExpenseParams = ExpenseParams(
    income: real,
    postcode: string,
    city: string,
    workplacePostcode: string,
    hasHousing: bool,
    knowsRent: bool,
    customRent: real,
    hasRoommates: bool,
    numRoommates: int,
    hasCar: bool)

  /** An expense entry; the icon and the description text are display only. */
  datatype ExpenseItem = ExpenseItem(category: string, amount: int, percentage: real)

  // ---------------------------------------------------------------------
  // City multiplier

  /** `getCityMultiplier`: the first group whose name occurs in the lower-cased city wins. */
  function CityMultiplier(city: string): (m: real)
    ensures var c := ToLower(city);
      (m == 1.5 <==> Contains(c, "london"))
      && (m == 1.3 <==> !Contains(c, "london") && (Contains(c, "cambridge") || Contains(c, "oxford")))
      && (m == 1.25 <==> !Contains(c, "london") && !Contains(c, "cambridge") && !Contains(c, "oxford")
                         && (Contains(c, "brighton") || Contains(c, "bath")))
    ensures 0.9 <= m <= 1.5
  {
    var c := ToLower(city);
    if Contains(c, "london") then 1.5
    else if Contains(c, "cambridge") || Contains(c, "oxford") then 1.3
    else if Contains(c, "brighton") || Contains(c, "bath") then 1.25
    else if Contains(c, "bristol") || Contains(c, "manchester") || Contains(c, "birmingham") || Contains(c, "edinburgh") then 1.15
    else if Contains(c, "reading") || Contains(c, "leeds") || Contains(c, "sheffield") || Contains(c, "liverpool") then 1.0
    else 0.9
  }

  /** The city test ignores case. */
  lemma CityMultiplierIgnoresCase(city: string)
    ensures CityMultiplier(ToLower(city)) == CityMultiplier(city)
  {
    ToLowerIdempotent(city);
  }

  // ---------------------------------------------------------------------
  // Commute multiplier

  /** Index of the first decimal digit, if any. */
  function FirstDigit(s: string): (k: Option<nat>)
    ensures k.Some? ==> k.value < |s| && IsDigit(s[k.value]) && forall i :: 0 <= i < k.value ==> !IsDigit(s[i])
    ensures k.None? ==> forall i :: 0 <= i < |s| ==> !IsDigit(s[i])
  {
    if s == [] then None
    else if IsDigit(s[0]) then Some(0)
    else match FirstDigit(s[1..])
      case None => None
      case Some(k) => Some(k + 1)
  }

  /** Index just past `s[from..]`'s leading run of non-line-terminators: the
      end of what `.*` matches from `from`. */
  function LineEnd(s: string, from: nat): (j: nat)
    requires from <= |s|
    ensures from <= j <= |s|
    ensures forall i :: from <= i < j ==> !IsLineTerminator(s[i])
    ensures j < |s| ==> IsLineTerminator(s[j])
    decreases |s| - from
  {
    if from == |s| || IsLineTerminator(s[from]) then from else LineEnd(s, from + 1)
  }

  /** The postcode with its first match of the pattern `\d.*` removed: the first
      digit and the rest of its line go. */
  function PostcodeArea(postcode: string): (area: string)
    ensures (forall i :: 0 <= i < |postcode| ==> !IsDigit(postcode[i])) ==> area == postcode
  {
    match FirstDigit(postcode)
    case None => postcode
    case Some(k) => postcode[..k] + postcode[LineEnd(postcode, k + 1)..]
  }

  /** On a one-line postcode the area is exactly the part before the first digit. */
  lemma AreaOfOneLine(postcode: string)
    requires forall i :: 0 <= i < |postcode| ==> !IsLineTerminator(postcode[i])
    ensures var area := PostcodeArea(postcode);
      area == postcode[..|area|]
      && (forall i :: 0 <= i < |area| ==> !IsDigit(area[i]))
      && (|area| < |postcode| ==> IsDigit(postcode[|area|]))
  {
    match FirstDigit(postcode)
    case None =>
    case Some(k) =>
      assert LineEnd(postcode, k + 1) == |postcode|;
      assert postcode[..k] + postcode[|postcode|..] == postcode[..k];
  }

  const LondonAreas: seq<string> := ["SW", "SE", "E", "W", "N", "NW", "EC", "WC"]

  /** `londonAreas.some(a => area.startsWith(a))`. */
  predicate IsLondonArea(area: string)
  {
    StartsWithAny(area, LondonAreas)
  }

  /** Some prefix in the list starts `s`, tried in order. */
  predicate StartsWithAny(s: string, prefixes: seq<string>)
  {
    prefixes != [] && (StartsWith(s, prefixes[0]) || StartsWithAny(s, prefixes[1..]))
  }

  /** Because "E", "W" and "N" are in the list, any area starting with one of
      those letters counts, as do "SW..." and "SE..." (so "EH" and "NE" do too). */
  lemma LondonAreaByLetters(area: string)
    ensures IsLondonArea(area) <==>
      |area| >= 1 && (area[0] == 'E' || area[0] == 'W' || area[0] == 'N'
                      || (|area| >= 2 && area[0] == 'S' && (area[1] == 'W' || area[1] == 'E')))
  {
    StartsWithSome(area, LondonAreas);
    if |area| >= 1 && (area[0] == 'E' || area[0] == 'W' || area[0] == 'N') {
      var i := if area[0] == 'E' then 2 else if area[0] == 'W' then 3 else 4;
      assert StartsWith(area, LondonAreas[i]);
    } else if |area| >= 2 && area[0] == 'S' && (area[1] == 'W' || area[1] == 'E') {
      var i := if area[1] == 'W' then 0 else 1;
      assert StartsWith(area, LondonAreas[i]);
    }
  }

  /** `prefixes.some(p => s.startsWith(p))`. */
  lemma {:induction false} StartsWithSome(s: string, prefixes: seq<string>)
    ensures StartsWithAny(s, prefixes) <==> exists i :: 0 <= i < |prefixes| && StartsWith(s, prefixes[i])
  {
    if prefixes != [] {
      StartsWithSome(s, prefixes[1..]);
      if StartsWithAny(s, prefixes[1..]) {
        var i :| 0 <= i < |prefixes[1..]| && StartsWith(s, prefixes[1..][i]);
        assert StartsWith(s, prefixes[i + 1]);
      }
      if exists i :: 0 <= i < |prefixes| && StartsWith(s, prefixes[i]) {
        var i :| 0 <= i < |prefixes| && StartsWith(s, prefixes[i]);
        if i > 0 {
          assert prefixes[1..][i - 1] == prefixes[i];
        }
      }
    }
  }

  /** `calculateDistanceMultiplier(home, work)`. */
  function DistanceMultiplier(homePostcode: string, workPostcode: string): (m: real)
    ensures 0.8 <= m <= 1.4
  {
    var homeArea := PostcodeArea(homePostcode);
    var workArea := PostcodeArea(workPostcode);
    var isHomeLondon := IsLondonArea(homeArea);
    var isWorkLondon := IsLondonArea(workArea);
    if isHomeLondon && isWorkLondon then 1.0
    else if isHomeLondon || isWorkLondon then 1.4
    else if homeArea == workArea then 0.8
    else 1.2
  }

  /** Both in London: 1.0; exactly one: 1.4; neither, same area: 0.8; else 1.2. */
  lemma DistanceCases(homePostcode: string, workPostcode: string)
    ensures var m := DistanceMultiplier(homePostcode, workPostcode);
      var h, w := IsLondonArea(PostcodeArea(homePostcode)), IsLondonArea(PostcodeArea(workPostcode));
      (m == 1.0 <==> h && w)
      && (m == 1.4 <==> h != w)
      && (m == 0.8 <==> !h && !w && PostcodeArea(homePostcode) == PostcodeArea(workPostcode))
      && (m == 1.2 <==> !h && !w && PostcodeArea(homePostcode) != PostcodeArea(workPostcode))
  {
  }

  // ---------------------------------------------------------------------
  // Inflation

  const AnnualInflationRate: real := 0.025

  /** `applyInflation(amount, isAffected)`. */
  function ApplyInflation(amount: real, isAffected: bool): (r: real)
    ensures isAffected ==> r == amount * 1.025
    ensures !isAffected ==> r == amount
  {
    if isAffected then amount * (1.0 + AnnualInflationRate) else amount
  }

  // ---------------------------------------------------------------------
  // Income tax and National Insurance

  const PersonalAllowance: real := 12570.0
  const BasicBandWidth: real := 37700.0
  const HigherRateThreshold: real := 50270.0
  const HigherBandWidth: real := 75000.0
  const AdditionalRateThreshold: real := 125270.0

  /** The part of `x` that falls in `[lo, lo + width]`. */
  function Slice(x: real, lo: real, width: real): (r: real)
    requires width >= 0.0
    ensures 0.0 <= r <= width
  {
    if x <= lo then 0.0 else MinR(x - lo, width)
  }

  /** The band structure as one sum: 20% of the basic band, 40% of the higher
      band and 45% of everything above the additional-rate threshold. */
  function TaxByBands(annualIncome: real): (t: real)
    ensures t >= 0.0
  {
    0.2 * Slice(annualIncome, PersonalAllowance, BasicBandWidth)
    + 0.4 * Slice(annualIncome, HigherRateThreshold, HigherBandWidth)
    + 0.45 * (if annualIncome > AdditionalRateThreshold then annualIncome - AdditionalRateThreshold else 0.0)
  }

  /** The bands meet end to end. */
  lemma BandsAreContiguous()
    ensures PersonalAllowance + BasicBandWidth == HigherRateThreshold
    ensures HigherRateThreshold + HigherBandWidth == AdditionalRateThreshold
  {
  }

  /** The nested `if`s that accumulate `annualTax`. */
  method AnnualTax(annualIncome: real) returns (annualTax: real)
    ensures annualTax == TaxByBands(annualIncome)
  {
    annualTax := 0.0;
    if annualIncome > 12570.0 {
      var basicRateIncome := MinR(annualIncome - 12570.0, 37700.0);
      annualTax := annualTax + basicRateIncome * 0.2;
      if annualIncome > 50270.0 {
        var higherRateIncome := MinR(annualIncome - 50270.0, 75000.0);
        annualTax := annualTax + higherRateIncome * 0.4;
        if annualIncome > 125270.0 {
          annualTax := annualTax + (annualIncome - 125270.0) * 0.45;
        }
      }
    }
  }

  lemma TaxFreeUpToAllowance(annualIncome: real)
    requires annualIncome <= PersonalAllowance
    ensures TaxByBands(annualIncome) == 0.0
  {
  }

  /** Tax grows by at most 45p and at least 0p per extra pound: it never
      decreases, it has no jumps, and the marginal rate never exceeds 45%. */
  lemma TaxMarginalRate(a: real, b: real)
    requires a <= b
    ensures 0.0 <= TaxByBands(b) - TaxByBands(a) <= 0.45 * (b - a)
  {
    var s1a, s1b := Slice(a, PersonalAllowance, BasicBandWidth), Slice(b, PersonalAllowance, BasicBandWidth);
    var s2a, s2b := Slice(a, HigherRateThreshold, HigherBandWidth), Slice(b, HigherRateThreshold, HigherBandWidth);
    var s3a := if a > AdditionalRateThreshold then a - AdditionalRateThreshold else 0.0;
    var s3b := if b > AdditionalRateThreshold then b - AdditionalRateThreshold else 0.0;
    assert 0.0 <= s1b - s1a && 0.0 <= s2b - s2a && 0.0 <= s3b - s3a;
    assert (s1b - s1a) + (s2b - s2a) + (s3b - s3a) <= b - a;
  }

  /** Tax never exceeds 45% of the income above the personal allowance. */
  lemma TaxBelowTopRate(annualIncome: real)
    ensures TaxByBands(annualIncome) <= 0.45 * MaxR(annualIncome - PersonalAllowance, 0.0)
  {
    if annualIncome > PersonalAllowance {
      TaxMarginalRate(PersonalAllowance, annualIncome);
    }
  }

  /** Monthly Class 1 National Insurance: 12% between 1048 and 4189, 2% above. */
  function MonthlyNI(income: real): (ni: real)
    ensures income <= 1048.0 ==> ni == 0.0
    ensures 1048.0 < income <= 4189.0 ==> ni == (income - 1048.0) * 0.12
    ensures income > 4189.0 ==> ni == (4189.0 - 1048.0) * 0.12 + (income - 4189.0) * 0.02
  {
    if income > 1048.0 then
      (MinR(income, 4189.0) - 1048.0) * 0.12 + (if income > 4189.0 then (income - 4189.0) * 0.02 else 0.0)
    else 0.0
  }

  /** National Insurance never decreases with income, and the marginal rate is at most 12%. */
  lemma NIMarginalRate(a: real, b: real)
    requires a <= b
    ensures 0.0 <= MonthlyNI(b) - MonthlyNI(a) <= 0.12 * (b - a)
  {
  }

  // ---------------------------------------------------------------------
  // Housing

  /** The rent estimate when the user does not give one: 35% of income scaled
      by the city, capped at 1200 in the most expensive cities and 800 elsewhere. */
  function EstimatedRent(income: real, cityMultiplier: real): (r: real)
    ensures r <= (if cityMultiplier > 1.3 then 1200.0 else 800.0)
    ensures r <= income * 0.35 * cityMultiplier
  {
    MinR(income * 0.35 * cityMultiplier, if cityMultiplier > 1.3 then 1200.0 else 800.0)
  }

  /** The user's own rent is used exactly when they know it and it is positive. */
  function HousingCost(p: ExpenseParams): (c: real)
    ensures p.knowsRent && p.customRent > 0.0 ==> c == p.customRent
    ensures !(p.knowsRent && p.customRent > 0.0) ==> c == EstimatedRent(p.income, CityMultiplier(p.city))
  {
    if p.knowsRent && p.customRent > 0.0 then p.customRent else EstimatedRent(p.income, CityMultiplier(p.city))
  }

  /** The people sharing the rent. */
  function Sharers(p: ExpenseParams): int
  {
    if p.hasRoommates then p.numRoommates + 1 else 1
  }

  /** The user's share of the housing cost; zero without housing. */
  function HousingShare(p: ExpenseParams): (h: real)
    requires Sharers(p) != 0
    ensures !p.hasHousing ==> h == 0.0
    ensures p.hasHousing ==> h * Sharers(p) as real == HousingCost(p)
  {
    if p.hasHousing then HousingCost(p) / Sharers(p) as real else 0.0
  }

  /** The step-by-step assignment of `housingAmount`. */
  method HousingAmount(p: ExpenseParams) returns (housingAmount: real)
    requires Sharers(p) != 0
    ensures housingAmount == HousingShare(p)
  {
    housingAmount := 0.0;
    if p.hasHousing {
      var housingCost: real;
      var cityMultiplier := CityMultiplier(p.city);
      if p.knowsRent && p.customRent > 0.0 {
        housingCost := p.customRent;
      } else {
        housingCost := MinR(p.income * 0.35 * cityMultiplier, if cityMultiplier > 1.3 then 1200.0 else 800.0);
      }
      assert housingCost == HousingCost(p);
      var totalRoommates := if p.hasRoommates then p.numRoommates + 1 else 1;
      housingAmount := housingCost / totalRoommates as real;
    }
  }

  // ---------------------------------------------------------------------
  // The expense list

  const TaxesCategory: string := "Taxes & National Insurance"
  const HousingCategory: string := "Housing"
  const TransportCategory: string := "Transport"
  const CarCategory: string := "Car Costs"
  /** The categories after the car entry, always present and in this order. */
  const TrailingCategories: seq<string> := ["Subscriptions", "Shopping", "Outings & Social", "Vacations", "Maintenance"]

  function Categories(items: seq<ExpenseItem>): (cs: seq<string>)
    ensures |cs| == |items|
    ensures forall i :: 0 <= i < |items| ==> cs[i] == items[i].category
  {
    seq(|items|, i requires 0 <= i < |items| => items[i].category)
  }

  /** The tax entry, present only when some tax or National Insurance is due. */
  function TaxEntries(income: real, monthlyTax: real, monthlyNI: real): (e: seq<ExpenseItem>)
    requires income != 0.0
    ensures |e| == (if monthlyTax > 0.0 || monthlyNI > 0.0 then 1 else 0)
    ensures forall i :: 0 <= i < |e| ==> e[i].category == TaxesCategory
  {
    if monthlyTax > 0.0 || monthlyNI > 0.0 then
      [ExpenseItem(TaxesCategory, Round(monthlyTax + monthlyNI), Round(((monthlyTax + monthlyNI) / income) * 100.0) as real)]
    else []
  }

  /** The housing entry, present only when the user pays for housing. */
  function HousingEntries(p: ExpenseParams, housingAmount: real): (e: seq<ExpenseItem>)
    requires p.income != 0.0
    ensures |e| == (if p.hasHousing then 1 else 0)
    ensures forall i :: 0 <= i < |e| ==> e[i].category == HousingCategory
  {
    if p.hasHousing then
      [ExpenseItem(HousingCategory, Round(housingAmount), Round((housingAmount / p.income) * 100.0) as real)]
    else []
  }

  /** Transport: 15% scaled by the commute, capped at 350 before inflation. */
  function TransportItem(income: real, distanceMultiplier: real): (e: ExpenseItem)
    requires 0.8 <= distanceMultiplier <= 1.4
    ensures e.category == TransportCategory
    ensures e.amount <= 359 && e.percentage <= 25.0
  {
    var base := MinR(income * 0.15 * distanceMultiplier, 350.0);
    ExpenseItem(TransportCategory, Round(ApplyInflation(base, true)), MinR(15.0 * distanceMultiplier, 25.0))
  }

  /** Car costs, present only when the user has a car: at most Round(280 * 1.025) = 287. */
  function CarEntries(p: ExpenseParams, cityMultiplier: real): (e: seq<ExpenseItem>)
    ensures |e| == (if p.hasCar then 1 else 0)
    ensures forall i :: 0 <= i < |e| ==> e[i].category == CarCategory && e[i].amount <= 287 && e[i].percentage <= 28.0
  {
    if p.hasCar then
      var base := MinR(p.income * 0.12 * cityMultiplier, 280.0);
      [ExpenseItem(CarCategory, Round(ApplyInflation(base, true)), MinR(12.0 * cityMultiplier, 28.0))]
    else []
  }

  /** Subscriptions, never inflated: at most 80 and at most 8% of income. */
  function SubscriptionsItem(income: real): (e: ExpenseItem)
    requires income != 0.0
    ensures e.category == TrailingCategories[0]
    ensures e.amount <= 80 && e.percentage <= 8.0
    ensures income > 0.0 ==> e.amount >= 0
  {
    var base := MinR(income * 0.08, 80.0);
    ExpenseItem("Subscriptions", Round(base), MinR((base / income) * 100.0, 8.0))
  }

  /** Shopping: 18% scaled by the city, capped at the larger of 12% and 180. */
  function ShoppingItem(income: real, cityMultiplier: real): (e: ExpenseItem)
    ensures e.category == TrailingCategories[1]
    ensures e.percentage <= 25.0
  {
    ExpenseItem("Shopping", Round(ApplyInflation(MinR(income * 0.18 * cityMultiplier, MaxR(income * 0.12, 180.0)), true)),
                MinR(18.0 * cityMultiplier, 25.0))
  }

  /** Outings: the cap and the percentage cap are higher above a 1.3 city
      multiplier; the amount is at most Round(300 * 1.025) = 308. */
  function OutingsItem(income: real, cityMultiplier: real): (e: ExpenseItem)
    ensures e.category == TrailingCategories[2]
    ensures e.amount <= 308 && e.percentage <= 20.0
    ensures cityMultiplier <= 1.3 ==> e.amount <= 185 && e.percentage <= 15.0
  {
    var base := MinR(income * 0.12 * cityMultiplier, if cityMultiplier > 1.3 then 300.0 else 180.0);
    ExpenseItem("Outings & Social", Round(ApplyInflation(base, true)),
                MinR(12.0 * cityMultiplier, if cityMultiplier > 1.3 then 20.0 else 15.0))
  }

  /** Vacations: at most Round(150 * 1.025) = 154 and at most 5% of income. */
  function VacationsItem(income: real): (e: ExpenseItem)
    requires income != 0.0
    ensures e.category == TrailingCategories[3]
    ensures e.amount <= 154 && e.percentage <= 5.0
    ensures income > 0.0 ==> e.amount >= 0
  {
    var base := MinR(income * 0.05, 150.0);
    ExpenseItem("Vacations", Round(ApplyInflation(base, true)), MinR((base / income) * 100.0, 5.0))
  }

  /** Maintenance, never inflated: at most 100 and at most 3% of income. */
  function MaintenanceItem(income: real): (e: ExpenseItem)
    requires income != 0.0
    ensures e.category == TrailingCategories[4]
    ensures e.amount <= 100 && e.percentage <= 3.0
    ensures income > 0.0 ==> e.amount >= 0
  {
    var base := MinR(income * 0.03, 100.0);
    ExpenseItem("Maintenance", Round(base), MinR((base / income) * 100.0, 3.0))
  }

  /** The array literal of `calculateExpenseBreakdown`, from the computed
      city and commute multipliers, monthly tax, National Insurance and
      housing share. */
  function ExpenseItems(p: ExpenseParams, cityMultiplier: real, distanceMultiplier: real,
                        monthlyTax: real, monthlyNI: real, housingAmount: real): (items: seq<ExpenseItem>)
    requires p.income != 0.0 && 0.8 <= distanceMultiplier <= 1.4
  {
    TaxEntries(p.income, monthlyTax, monthlyNI)
    + HousingEntries(p, housingAmount)
    + [TransportItem(p.income, distanceMultiplier)]
    + CarEntries(p, cityMultiplier)
    + TrailingItems(p.income, cityMultiplier)
  }

  /** The five entries that close every list. */
  function TrailingItems(income: real, cityMultiplier: real): (e: seq<ExpenseItem>)
    requires income != 0.0
    ensures Categories(e) == TrailingCategories
  {
    [SubscriptionsItem(income), ShoppingItem(income, cityMultiplier), OutingsItem(income, cityMultiplier),
     VacationsItem(income), MaintenanceItem(income)]
  }

  lemma CategoriesAppend(a: seq<ExpenseItem>, b: seq<ExpenseItem>)
    ensures Categories(a + b) == Categories(a) + Categories(b)
  {
  }

  /** What `calculateExpenseBreakdown(params)` returns. */
  function ExpenseBreakdown(p: ExpenseParams): seq<ExpenseItem>
    requires p.income != 0.0 && Sharers(p) != 0
  {
    ExpenseItems(p, CityMultiplier(p.city), DistanceMultiplier(p.postcode, p.workplacePostcode),
                 TaxByBands(p.income * 12.0) / 12.0, MonthlyNI(p.income), HousingShare(p))
  }

  /** `calculateExpenseBreakdown`: tax accumulated band by band, housing
      assigned step by step, then the entry list. */
  method CalculateExpenseBreakdown(p: ExpenseParams) returns (expenses: seq<ExpenseItem>)
    requires p.income != 0.0 && Sharers(p) != 0
    ensures expenses == ExpenseBreakdown(p)
  {
    var cityMultiplier := CityMultiplier(p.city);
    var distanceMultiplier := DistanceMultiplier(p.postcode, p.workplacePostcode);
    var annualIncome := p.income * 12.0;
    var annualTax := AnnualTax(annualIncome);
    var monthlyTax := annualTax / 12.0;
    var monthlyNI := MonthlyNI(p.income);
    var housingAmount := HousingAmount(p);
    expenses := ExpenseItems(p, cityMultiplier, distanceMultiplier, monthlyTax, monthlyNI, housingAmount);
    SameParts(p, cityMultiplier, distanceMultiplier, monthlyTax, TaxByBands(p.income * 12.0) / 12.0,
              monthlyNI, housingAmount, HousingShare(p));
  }

  lemma SameParts(p: ExpenseParams, cm: real, dm: real, tax: real, tax': real, ni: real, housing: real, housing': real)
    requires p.income != 0.0 && 0.8 <= dm <= 1.4 && tax == tax' && housing == housing'
    ensures ExpenseItems(p, cm, dm, tax, ni, housing) == ExpenseItems(p, cm, dm, tax', ni, housing')
  {
  }

  /** Some tax or National Insurance is due. */
  predicate TaxDue(p: ExpenseParams)
  {
    TaxByBands(p.income * 12.0) / 12.0 > 0.0 || MonthlyNI(p.income) > 0.0
  }

  /** Index of the transport entry: after the optional tax and housing entries. */
  function TransportIndex(p: ExpenseParams): nat
  {
    (if TaxDue(p) then 1 else 0) + (if p.hasHousing then 1 else 0)
  }

  /** Which entries a list holds: taxes first iff `hasTax`, housing iff
      `hasHousing`, the car iff `hasCar`; transport right after the optional
      tax and housing entries, and the five trailing categories last. */
  ghost predicate Layout(items: seq<ExpenseItem>, hasTax: bool, hasHousing: bool, hasCar: bool)
  {
    var t := (if hasTax then 1 else 0) + (if hasHousing then 1 else 0);
    |items| == t + (if hasCar then 1 else 0) + 6
    && (hasTax <==> items[0].category == TaxesCategory)
    && (hasHousing <==> HousingCategory in Categories(items))
    && (hasCar <==> CarCategory in Categories(items))
    && items[t].category == TransportCategory
    && Categories(items)[|items| - 5..] == TrailingCategories
  }

  /** Which entries appear: taxes iff some tax or NI is due, housing iff the
      user pays for housing, the car iff they have one; transport and the five
      trailing categories always, in that order. */
  lemma ExpenseEntries(p: ExpenseParams)
    requires p.income != 0.0 && Sharers(p) != 0
    ensures Layout(ExpenseBreakdown(p), TaxDue(p), p.hasHousing, p.hasCar)
    ensures ExpenseBreakdown(p)[TransportIndex(p)].category == TransportCategory
  {
    var cm, dm := CityMultiplier(p.city), DistanceMultiplier(p.postcode, p.workplacePostcode);
    var tax, ni, housing := TaxByBands(p.income * 12.0) / 12.0, MonthlyNI(p.income), HousingShare(p);
    assert ExpenseBreakdown(p) == ExpenseItems(p, cm, dm, tax, ni, housing);
    assert TaxDue(p) == (tax > 0.0 || ni > 0.0);
    ItemsLayout(p, cm, dm, tax, ni, housing);
  }

  /** The layout of the entry list for any multipliers, tax, NI and housing share. */
  lemma ItemsLayout(p: ExpenseParams, cm: real, dm: real, monthlyTax: real, monthlyNI: real, housingAmount: real)
    requires p.income != 0.0 && 0.8 <= dm <= 1.4
    ensures Layout(ExpenseItems(p, cm, dm, monthlyTax, monthlyNI, housingAmount),
                   monthlyTax > 0.0 || monthlyNI > 0.0, p.hasHousing, p.hasCar)
  {
    var taxes := TaxEntries(p.income, monthlyTax, monthlyNI);
    var housing := HousingEntries(p, housingAmount);
    var transport := TransportItem(p.income, dm);
    var car := CarEntries(p, cm);
    var trailing := TrailingItems(p.income, cm);
    EntryLayout(taxes, housing, transport, car, trailing, monthlyTax > 0.0 || monthlyNI > 0.0, p.hasHousing, p.hasCar);
  }

  /** The layout facts for any list built from the five groups. */
  lemma EntryLayout(taxes: seq<ExpenseItem>, housing: seq<ExpenseItem>, transport: ExpenseItem,
                    car: seq<ExpenseItem>, trailing: seq<ExpenseItem>, hasTax: bool, hasHousing: bool, hasCar: bool)
    requires |taxes| == (if hasTax then 1 else 0) && forall i :: 0 <= i < |taxes| ==> taxes[i].category == TaxesCategory
    requires |housing| == (if hasHousing then 1 else 0) && forall i :: 0 <= i < |housing| ==> housing[i].category == HousingCategory
    requires transport.category == TransportCategory
    requires |car| == (if hasCar then 1 else 0) && forall i :: 0 <= i < |car| ==> car[i].category == CarCategory
    requires Categories(trailing) == TrailingCategories
    ensures Layout(taxes + housing + [transport] + car + trailing, hasTax, hasHousing, hasCar)
  {
    var items := taxes + housing + [transport] + car + trailing;
    CategoriesAppend(taxes, housing);
    CategoriesAppend(taxes + housing, [transport]);
    CategoriesAppend(taxes + housing + [transport], car);
    CategoriesAppend(taxes + housing + [transport] + car, trailing);
    GroupPresence(Categories(taxes), Categories(housing), Categories(car), hasTax, hasHousing, hasCar);
    assert items[|taxes| + |housing|] == transport;
    if !hasTax {
      assert items[0] in housing + [transport];
    }
  }

  /** Over the category names: each optional group shows up exactly when it is non-empty. */
  lemma GroupPresence(taxes: seq<string>, housing: seq<string>, car: seq<string>, hasTax: bool, hasHousing: bool, hasCar: bool)
    requires taxes == (if hasTax then [TaxesCategory] else [])
    requires housing == (if hasHousing then [HousingCategory] else [])
    requires car == (if hasCar then [CarCategory] else [])
    ensures var cs := taxes + housing + [TransportCategory] + car + TrailingCategories;
      (hasHousing <==> HousingCategory in cs) && (hasCar <==> CarCategory in cs)
      && cs[|cs| - 5..] == TrailingCategories
  {
    var cs := taxes + housing + [TransportCategory] + car + TrailingCategories;
    assert cs[|cs| - 5..] == TrailingCategories;
  }

  /** The tax entry appears exactly when the monthly income is above 1047.5
      (the personal allowance over twelve months); the NI threshold of 1048 is
      slightly higher, so just below it only income tax is due. */
  lemma TaxEntryCondition(p: ExpenseParams)
    ensures TaxDue(p) <==> p.income > 1047.5
  {
    if p.income > 1047.5 {
      assert Slice(p.income * 12.0, PersonalAllowance, BasicBandWidth) > 0.0;
    } else {
      TaxFreeUpToAllowance(p.income * 12.0);
    }
  }
}
