/** The income form: five text fields, two yes/no questions that start
    unanswered, and the roommate count; the submit handler checks the form
    and hands the parsed payload to the page. */
module IncomeForm {
  import opened Prelude

  // ---------------------------------------------------------------------
  // Number parsing

  predicate IsHexDigit(c: char)
  {
    IsDigit(c) || ('a' <= c <= 'f') || ('A' <= c <= 'F')
  }

  function HexDigitValue(c: char): nat
  {
    if IsDigit(c) then c as int - '0' as int
    else if 'a' <= c <= 'f' then c as int - 'a' as int + 10
    else if 'A' <= c <= 'F' then c as int - 'A' as int + 10
    else 0
  }

  /** End of the run of hexadecimal digits starting at `i`. */
  function HexRunEnd(s: string, i: nat): (j: nat)
    requires i <= |s|
    ensures i <= j <= |s|
    ensures forall k :: i <= k < j ==> IsHexDigit(s[k])
    decreases |s| - i
  {
    if i < |s| && IsHexDigit(s[i]) then HexRunEnd(s, i + 1) else i
  }

  function HexValue(k: string): nat
  {
    if k == [] then 0 else 16 * HexValue(k[..|k| - 1]) + HexDigitValue(k[|k| - 1])
  }

  /** Where the digits start after an optional sign, and whether it was a minus. */
  function SignEnd(t: string): (k: nat)
    ensures k <= |t| && k <= 1
  {
    if |t| > 0 && (t[0] == '-' || t[0] == '+') then 1 else 0
  }

  predicate IsNegative(t: string)
  {
    |t| > 0 && t[0] == '-'
  }

  /** `parseInt(s)` with no radix: leading white space and a sign are skipped,
      a `0x`/`0X` prefix switches to base 16, and the longest run of digits
      is read; no digit at all is `NaN` (here `None`). */
  function ParseInt(s: string): (r: Option<int>)
    ensures (forall i :: 0 <= i < |s| ==> IsSpace(s[i])) ==> r.None?
    ensures r.Some? && r.value < 0 ==> IsNegative(TrimStart(s))
  {
    var t := TrimStart(s);
    var k := SignEnd(t);
    var sign := if IsNegative(t) then -1 else 1;
    if k + 1 < |t| && t[k] == '0' && (t[k + 1] == 'x' || t[k + 1] == 'X') then
      var e := HexRunEnd(t, k + 2);
      if e == k + 2 then None else Some(sign * HexValue(t[k + 2..e]))
    else
      var e := DigitRunEnd(t, k);
      if e == k then None else Some(sign * DigitsValue(t[k..e]))
  }

  /** `ParseInt(s) || 0`: `NaN` and zero both give 0. */
  function ParseIntOrZero(s: string): (n: int)
    ensures ParseInt(s).None? ==> n == 0
    ensures ParseInt(s).Some? ==> n == ParseInt(s).value
  {
    match ParseInt(s)
    case None => 0
    case Some(v) => v
  }

  function Pow10(e: nat): (r: nat)
    ensures r >= 1
  {
    if e == 0 then 1 else 10 * Pow10(e - 1)
  }

  /** `10 ** e` for any integer exponent. */
  function Scale(e: int): (r: real)
    ensures r > 0.0
  {
    if e >= 0 then Pow10(e) as real else 1.0 / Pow10(-e) as real
  }

  /** The result of `parseFloat`: a finite number, an infinity, or `NaN`. */
  datatype Num = NaN | Finite(value: real) | Infinite(negative: bool)

  /** The exponent part `e[+-]digits` starting at `m`, if one is there:
      its value and where it ends. */
  function Exponent(t: string, m: nat): (r: (int, nat))
    requires m <= |t|
    ensures m <= r.1 <= |t|
  {
    if m < |t| && (t[m] == 'e' || t[m] == 'E') then
      var k := m + 1 + (if m + 1 < |t| && (t[m + 1] == '-' || t[m + 1] == '+') then 1 else 0);
      var e := DigitRunEnd(t, k);
      if e == k then (0, m)
      else ((if t[m + 1] == '-' then -1 else 1) * DigitsValue(t[k..e]), e)
    else (0, m)
  }

  /** The unsigned decimal literal starting at `k`: `digits`, `digits.`,
      `digits.digits` or `.digits`, with an optional exponent; without a
      digit in the mantissa there is none. */
  function Decimal(t: string, k: nat): (r: Option<real>)
    requires k <= |t|
    ensures r.Some? ==> r.value >= 0.0
  {
    var intEnd := DigitRunEnd(t, k);
    var hasPoint := intEnd < |t| && t[intEnd] == '.';
    var fracStart := if hasPoint then intEnd + 1 else intEnd;
    var fracEnd := DigitRunEnd(t, fracStart);
    if intEnd == k && fracEnd == fracStart then None
    else
      Some(Scaled(DigitsValue(t[k..intEnd]), DigitsValue(t[fracStart..fracEnd]), Pow10(fracEnd - fracStart),
                  Scale(Exponent(t, fracEnd).0)))
  }

  /** `whole.digits` with `places` the power of ten below the digits,
      times the exponent's scale. */
  function Scaled(whole: nat, digits: nat, places: nat, scale: real): (r: real)
    requires places >= 1 && scale > 0.0
    ensures r >= 0.0
  {
    var fraction := digits as real / places as real;
    assert fraction >= 0.0;
    var mantissa := whole as real + fraction;
    assert mantissa * scale >= 0.0;
    mantissa * scale
  }

  /** `parseFloat(s)`: leading white space and a sign are skipped, then the
      longest prefix that reads as a decimal literal, or `Infinity`; without
      a digit it is `NaN`. */
  function ParseFloat(s: string): (r: Num)
    ensures (forall i :: 0 <= i < |s| ==> IsSpace(s[i])) ==> r == NaN
    ensures r.Finite? && r.value < 0.0 ==> IsNegative(TrimStart(s))
  {
    var t := TrimStart(s);
    var k := SignEnd(t);
    if StartsWith(t[k..], "Infinity") then Infinite(IsNegative(t))
    else
      match Decimal(t, k)
      case None => NaN
      case Some(m) => Finite(if IsNegative(t) then -m else m)
  }

  /** The decimal text of a number reads back as that number. */
  lemma {:induction false} DigitsOfNat(n: nat)
    ensures DigitsValue(NatToString(n)) == n
  {
    if n >= 10 {
      DigitsOfNat(n / 10);
      var s := NatToString(n);
      assert s[..|s| - 1] == NatToString(n / 10);
    }
  }

  /** `parseInt` reads back the decimal text of a count. */
  lemma ParseIntOfNat(n: nat)
    ensures ParseIntOrZero(NatToString(n)) == n
  {
    var s := NatToString(n);
    NoLeadingSpace(s);
    assert TrimStart(s) == s;
    assert SignEnd(s) == 0;
    assert !(1 < |s| && s[0] == '0' && (s[1] == 'x' || s[1] == 'X'));
    AllDigitsRun(s, 0);
    DigitsOfNat(n);
    assert s[0..|s|] == s;
  }

  /** `parseFloat` reads back the decimal text of a whole number. */
  lemma ParseFloatOfNat(n: nat)
    ensures ParseFloat(NatToString(n)) == Finite(n as real)
  {
    ParseFloatOfDigits(NatToString(n));
    DigitsOfNat(n);
  }

  /** `parseFloat` reads a run of digits alone as its decimal value. */
  lemma ParseFloatOfDigits(s: string)
    requires |s| >= 1 && forall i :: 0 <= i < |s| ==> IsDigit(s[i])
    ensures ParseFloat(s) == Finite(DigitsValue(s) as real)
  {
    NoLeadingSpace(s);
    UnsignedDigits(s);
    DecimalOfDigits(s);
  }

  /** A run of digits has no sign and does not spell `Infinity`. */
  lemma UnsignedDigits(s: string)
    requires |s| >= 1 && forall i :: 0 <= i < |s| ==> IsDigit(s[i])
    ensures SignEnd(s) == 0 && !IsNegative(s) && s[SignEnd(s)..] == s
    ensures !StartsWith(s, "Infinity")
  {
    assert IsDigit(s[0]) && !IsDigit('I') && !IsDigit('-') && !IsDigit('+');
  }

  /** A run of digits alone reads as its decimal value. */
  lemma DecimalOfDigits(s: string)
    requires |s| >= 1 && forall i :: 0 <= i < |s| ==> IsDigit(s[i])
    ensures Decimal(s, 0) == Some(DigitsValue(s) as real)
  {
    AllDigitsRun(s, 0);
    assert DigitRunEnd(s, |s|) == |s|;
    assert s[0..|s|] == s;
    assert s[|s|..|s|] == [];
    assert Exponent(s, |s|).0 == 0;
    assert Scale(0) == 1.0;
  }

  lemma NoLeadingSpace(s: string)
    requires |s| >= 1 && forall i :: 0 <= i < |s| ==> IsDigit(s[i])
    ensures TrimStart(s) == s
  {
    assert !IsSpace(s[0]);
  }

  lemma {:induction false} AllDigitsRun(s: string, i: nat)
    requires i <= |s| && forall k :: 0 <= k < |s| ==> IsDigit(s[k])
    ensures DigitRunEnd(s, i) == |s|
    decreases |s| - i
  {
    if i < |s| {
      AllDigitsRun(s, i + 1);
    }
  }

  // ---------------------------------------------------------------------
  // Validity and payload

  /** `isFormValid`: the five text fields are filled in, the housing question
      is answered, and with housing the roommate question is answered too,
      with a count when the answer is yes. */
  function FormValid(postcode: string, city: string, workplacePostcode: string, workplaceCity: string,
                     income: string, hasHousing: Option<bool>, hasRoommates: Option<bool>, numRoommates: string): (ok: bool)
    ensures ok ==> hasHousing.Some? && income != ""
    ensures hasHousing == Some(false)
        ==> (ok <==> postcode != "" && city != "" && workplacePostcode != "" && workplaceCity != "" && income != "")
    ensures hasHousing == Some(true) && hasRoommates == Some(true) && numRoommates == "" ==> !ok
  {
    Truthy(postcode) && Truthy(city) && Truthy(workplacePostcode) && Truthy(workplaceCity) && Truthy(income)
    && hasHousing.Some?
    && (hasHousing == Some(false) || (hasRoommates.Some? && (hasRoommates == Some(false) || Truthy(numRoommates))))
  }

  /** The `disabled` expression of the submit button. */
  function SubmitDisabledFor(postcode: string, city: string, workplacePostcode: string, workplaceCity: string,
                             income: string, hasHousing: Option<bool>, hasRoommates: Option<bool>, numRoommates: string): (r: bool)
    ensures hasHousing.None? || postcode == "" || income == "" ==> r
    ensures hasHousing == Some(false)
        ==> (!r <==> postcode != "" && city != "" && workplacePostcode != "" && workplaceCity != "" && income != "")
  {
    !Truthy(postcode) || !Truthy(city) || !Truthy(workplacePostcode) || !Truthy(workplaceCity) || !Truthy(income)
    || hasHousing.None?
    || (hasHousing == Some(true) && hasRoommates.None?)
    || (hasHousing == Some(true) && hasRoommates == Some(true) && !Truthy(numRoommates))
  }

  /** The button is disabled exactly when the submit handler would refuse the form. */
  lemma DisabledIffInvalid(postcode: string, city: string, workplacePostcode: string, workplaceCity: string,
                           income: string, hasHousing: Option<bool>, hasRoommates: Option<bool>, numRoommates: string)
    ensures SubmitDisabledFor(postcode, city, workplacePostcode, workplaceCity, income, hasHousing, hasRoommates, numRoommates)
        <==> !FormValid(postcode, city, workplacePostcode, workplaceCity, income, hasHousing, hasRoommates, numRoommates)
  {
    match hasHousing
    case None =>
    case Some(h) =>
      match hasRoommates
      case None =>
      case Some(m) =>
        if h { if m { } else { } } else { }
  }

  /** What `onSubmit` receives; the income is whatever `parseFloat` makes of the field. */
  datatype Payload = Payload(
    postcode: string,
    city: string,
    workplacePostcode: string,
    workplaceCity: string,
    income: Num,
    hasHousing: bool,
    hasRoommates: bool,
    numRoommates: int)

  /** The submitted payload: unanswered roommates read as no, and a count
      that does not parse (or parses as 0) reads as 0. */
  function PayloadOf(postcode: string, city: string, workplacePostcode: string, workplaceCity: string,
                     income: string, hasHousing: bool, hasRoommates: Option<bool>, numRoommates: string): (p: Payload)
    ensures p.hasRoommates <==> hasRoommates == Some(true)
    ensures numRoommates == "" ==> p.numRoommates == 0
    ensures forall n: nat :: numRoommates == NatToString(n) ==> p.numRoommates == n
    ensures p.income == ParseFloat(income)
  {
    EmptyCount();
    forall n: nat | numRoommates == NatToString(n) ensures ParseIntOrZero(numRoommates) == n {
      ParseIntOfNat(n);
    }
    Payload(postcode, city, workplacePostcode, workplaceCity, ParseFloat(income), hasHousing,
            hasRoommates == Some(true), ParseIntOrZero(numRoommates))
  }

  lemma EmptyCount()
    ensures ParseIntOrZero("") == 0
  {
    assert TrimStart("") == "";
  }

  // ---------------------------------------------------------------------
  // Browser constraint validation

  /** `d` is a whole multiple of `step`. */
  predicate StepAligned(d: real, step: real)
    requires step > 0.0
  {
    (d / step).Floor as real == d / step
  }

  /** `type="number" min="0" step="0.01"` on the income input: a number, not
      below 0, that is a whole number of hundredths above the minimum. */
  predicate IncomeConstraintsMet(income: string)
  {
    var v := ParseFloat(income);
    v.Finite? && v.value >= 0.0 && StepAligned(v.value - 0.0, 0.01)
  }

  /** `type="number" min="1" max="10"` on the count input, whose default step
      is 1: a whole number from 1 to 10. */
  predicate RoommatesConstraintsMet(numRoommates: string)
  {
    var v := ParseFloat(numRoommates);
    v.Finite? && 1.0 <= v.value <= 10.0 && StepAligned(v.value - 1.0, 1.0)
  }

  /** The browser's validation of the rendered number inputs, run when the
      submit button is pressed; the count input is rendered only after a yes
      to housing and to roommates. The `required` text fields are covered by
      `FormValid`. */
  predicate ConstraintsMet(income: string, hasHousing: Option<bool>, hasRoommates: Option<bool>, numRoommates: string)
  {
    IncomeConstraintsMet(income)
    && (hasHousing == Some(true) && hasRoommates == Some(true) ==> RoommatesConstraintsMet(numRoommates))
  }

  /** A typed count passes the browser's check exactly from 1 to 10. */
  lemma RoommateCountRange(n: nat)
    ensures RoommatesConstraintsMet(NatToString(n)) <==> 1 <= n <= 10
  {
    ParseFloatOfNat(n);
    CountStepAligned(n);
  }

  lemma CountStepAligned(n: nat)
    ensures StepAligned(n as real - 1.0, 1.0)
  {
    var d := n as real - 1.0;
    assert d / 1.0 == d;
    assert d.Floor == n - 1;
  }

  lemma ParseMinusFive()
    ensures ParseFloat("-5") == Finite(-5.0)
  {
    var t := "-5";
    assert TrimStart(t) == t;
    assert SignEnd(t) == 1 && IsNegative(t);
    assert !StartsWith(t[1..], "Infinity");
    assert DigitRunEnd(t, 2) == 2;
    assert DigitRunEnd(t, 1) == 2;
    assert t[1..2] == "5" && t[2..2] == "";
    assert Exponent(t, 2).0 == 0;
  }

  lemma ParseOnePointZeroZeroOne()
    ensures ParseFloat("1.001") == Finite(1.001)
  {
    var t := "1.001";
    assert TrimStart(t) == t;
    assert SignEnd(t) == 0 && !IsNegative(t);
    assert !StartsWith(t[0..], "Infinity");
    DecimalOfOnePointZeroZeroOne();
  }

  lemma DecimalOfOnePointZeroZeroOne()
    ensures Decimal("1.001", 0) == Some(1.001)
  {
    var t := "1.001";
    assert DigitRunEnd(t, 1) == 1;
    assert DigitRunEnd(t, 0) == 1;
    assert DigitRunEnd(t, 5) == 5;
    assert DigitRunEnd(t, 2) == 5;
    assert t[0..1] == "1" && t[2..5] == "001";
    assert DigitsValue("1") == 1;
    assert DigitsValue("001") == 1 by {
      assert "001"[..2] == "00" && "00"[..1] == "0";
    }
    assert Pow10(3) == 1000;
    assert Exponent(t, 5).0 == 0 && Scale(0) == 1.0;
    assert (1 as real + 1 as real / 1000 as real) * 1.0 == 1.001;
  }

  lemma ParseTwoPointFive()
    ensures ParseFloat("2.5") == Finite(2.5)
  {
    var t := "2.5";
    assert TrimStart(t) == t;
    assert SignEnd(t) == 0 && !IsNegative(t);
    assert !StartsWith(t[0..], "Infinity");
    assert DigitRunEnd(t, 1) == 1;
    assert DigitRunEnd(t, 0) == 1;
    assert DigitRunEnd(t, 3) == 3;
    assert DigitRunEnd(t, 2) == 3;
    assert t[0..1] == "2" && t[2..3] == "5";
    assert Exponent(t, 3).0 == 0;
  }

  /** Inputs the browser refuses although `isFormValid` accepts them: a
      negative income, a fraction of a penny, and counts of 0, 11 and 2.5. */
  lemma RefusedIncomes()
    ensures !IncomeConstraintsMet("-5") && !IncomeConstraintsMet("1.001")
  {
    RefusedNegative();
    RefusedFractionOfPenny();
  }

  lemma RefusedNegative()
    ensures !IncomeConstraintsMet("-5")
  {
    ParseMinusFive();
  }

  lemma RefusedFractionOfPenny()
    ensures !IncomeConstraintsMet("1.001")
  {
    ParseOnePointZeroZeroOne();
    FractionOfPennyRefused("1.001");
  }

  /** Any text that reads as 1.001 is off the penny grid. */
  lemma FractionOfPennyRefused(s: string)
    requires ParseFloat(s) == Finite(1.001)
    ensures !IncomeConstraintsMet(s)
  {
    assert !StepAligned(1.001 - 0.0, 0.01) by {
      assert (1.001 - 0.0) / 0.01 == 100.1;
      assert (100.1).Floor == 100;
    }
  }

  lemma RefusedCounts()
    ensures !RoommatesConstraintsMet("0") && !RoommatesConstraintsMet("11") && !RoommatesConstraintsMet("2.5")
  {
    RefusedZero();
    RefusedEleven();
    RefusedFraction();
  }

  lemma RefusedZero()
    ensures !RoommatesConstraintsMet("0")
  {
    RoommateCountRange(0);
    assert NatToString(0) == "0";
  }

  lemma RefusedEleven()
    ensures !RoommatesConstraintsMet("11")
  {
    var s := NatToString(11);
    assert NatToString(1) == "1";
    assert s == "11";
    ParseFloatOfNat(11);
  }

  lemma RefusedFraction()
    ensures !RoommatesConstraintsMet("2.5")
  {
    ParseTwoPointFive();
    assert !StepAligned(2.5 - 1.0, 1.0) by {
      assert (2.5 - 1.0) / 1.0 == 1.5;
      assert (1.5).Floor == 1;
    }
  }

  /** A whole income in pounds passes the browser's check. */
  lemma WholeIncomeAccepted(n: nat)
    ensures IncomeConstraintsMet(NatToString(n))
  {
    ParseFloatOfNat(n);
    WholeStepAligned(n);
  }

  lemma WholeStepAligned(n: nat)
    ensures StepAligned(n as real - 0.0, 0.01)
  {
    var v := n as real;
    assert (v - 0.0) / 0.01 == 100.0 * v;
    assert (100.0 * v).Floor == 100 * n;
  }

  class Form {
    var postcode: string
    var city: string
    var workplacePostcode: string
    var workplaceCity: string
    var income: string
    var hasHousing: Option<bool>
    var hasRoommates: Option<bool>
    var numRoommates: string

    /** The roommate answers only exist under a yes to housing, and the count
        only under a yes to roommates: the inputs for them are rendered
        only then, and changing an earlier answer clears the later ones. */
    predicate Consistent()
      reads this
    {
      (hasRoommates.Some? ==> hasHousing == Some(true))
      && (numRoommates != "" ==> hasRoommates == Some(true))
    }

    function IsFormValid(): (ok: bool)
      reads this
      ensures ok <==> !SubmitDisabledFor(postcode, city, workplacePostcode, workplaceCity, income, hasHousing, hasRoommates, numRoommates)
    {
      DisabledIffInvalid(postcode, city, workplacePostcode, workplaceCity, income, hasHousing, hasRoommates, numRoommates);
      FormValid(postcode, city, workplacePostcode, workplaceCity, income, hasHousing, hasRoommates, numRoommates)
    }

    /** The submit button's `disabled`, the negation of `isFormValid`. */
    function SubmitDisabled(): (r: bool)
      reads this
      ensures r <==> !IsFormValid()
    {
      DisabledIffInvalid(postcode, city, workplacePostcode, workplaceCity, income, hasHousing, hasRoommates, numRoommates);
      SubmitDisabledFor(postcode, city, workplacePostcode, workplaceCity, income, hasHousing, hasRoommates, numRoommates)
    }

    constructor()
      ensures postcode == "" && city == "" && workplacePostcode == "" && workplaceCity == "" && income == ""
      ensures hasHousing.None? && hasRoommates.None? && numRoommates == ""
      ensures Consistent() && !IsFormValid()
    {
      postcode, city, workplacePostcode, workplaceCity, income := "", "", "", "", "";
      hasHousing, hasRoommates, numRoommates := None, None, "";
    }

    /** The postcode inputs upper-case what is typed. */
    method SetPostcode(v: string)
      modifies this
      ensures postcode == ToUpper(v)
      ensures city == old(city) && workplacePostcode == old(workplacePostcode) && workplaceCity == old(workplaceCity)
      ensures income == old(income) && hasHousing == old(hasHousing) && hasRoommates == old(hasRoommates)
      ensures numRoommates == old(numRoommates)
    {
      postcode := ToUpper(v);
    }

    method SetWorkplacePostcode(v: string)
      modifies this
      ensures workplacePostcode == ToUpper(v)
      ensures postcode == old(postcode) && city == old(city) && workplaceCity == old(workplaceCity)
      ensures income == old(income) && hasHousing == old(hasHousing) && hasRoommates == old(hasRoommates)
      ensures numRoommates == old(numRoommates)
    {
      workplacePostcode := ToUpper(v);
    }

    method SetCity(v: string)
      modifies this
      ensures city == v
      ensures postcode == old(postcode) && workplacePostcode == old(workplacePostcode) && workplaceCity == old(workplaceCity)
      ensures income == old(income) && hasHousing == old(hasHousing) && hasRoommates == old(hasRoommates)
      ensures numRoommates == old(numRoommates)
    {
      city := v;
    }

    method SetWorkplaceCity(v: string)
      modifies this
      ensures workplaceCity == v
      ensures postcode == old(postcode) && city == old(city) && workplacePostcode == old(workplacePostcode)
      ensures income == old(income) && hasHousing == old(hasHousing) && hasRoommates == old(hasRoommates)
      ensures numRoommates == old(numRoommates)
    {
      workplaceCity := v;
    }

    method SetIncome(v: string)
      modifies this
      ensures income == v
      ensures postcode == old(postcode) && city == old(city) && workplacePostcode == old(workplacePostcode)
      ensures workplaceCity == old(workplaceCity) && hasHousing == old(hasHousing) && hasRoommates == old(hasRoommates)
      ensures numRoommates == old(numRoommates)
    {
      income := v;
    }

    /** The count input is only shown after a yes to housing and to roommates. */
    method SetNumRoommates(v: string)
      requires hasHousing == Some(true) && hasRoommates == Some(true)
      modifies this
      ensures numRoommates == v
      ensures postcode == old(postcode) && city == old(city) && workplacePostcode == old(workplacePostcode)
      ensures workplaceCity == old(workplaceCity) && income == old(income)
      ensures hasHousing == old(hasHousing) && hasRoommates == old(hasRoommates)
      ensures Consistent()
    {
      numRoommates := v;
    }

    /** Housing Yes/No: records the answer and clears both roommate answers. */
    method ChooseHousing(b: bool)
      modifies this
      ensures hasHousing == Some(b) && hasRoommates.None? && numRoommates == ""
      ensures postcode == old(postcode) && city == old(city) && workplacePostcode == old(workplacePostcode)
      ensures workplaceCity == old(workplaceCity) && income == old(income)
      ensures Consistent()
      ensures b ==> !IsFormValid()
      ensures !b ==> (IsFormValid() <==> Truthy(postcode) && Truthy(city) && Truthy(workplacePostcode)
                                          && Truthy(workplaceCity) && Truthy(income))
    {
      hasHousing := Some(b);
      hasRoommates := None;
      numRoommates := "";
    }

    /** Roommates Yes/No, shown only after a yes to housing: records the
        answer and clears the count. */
    method ChooseRoommates(b: bool)
      requires hasHousing == Some(true)
      modifies this
      ensures hasRoommates == Some(b) && numRoommates == ""
      ensures postcode == old(postcode) && city == old(city) && workplacePostcode == old(workplacePostcode)
      ensures workplaceCity == old(workplaceCity) && income == old(income) && hasHousing == old(hasHousing)
      ensures Consistent()
      ensures b ==> !IsFormValid()
      ensures !b ==> (IsFormValid() <==> Truthy(postcode) && Truthy(city) && Truthy(workplacePostcode)
                                          && Truthy(workplaceCity) && Truthy(income))
    {
      hasRoommates := Some(b);
      numRoommates := "";
    }

    predicate MeetsConstraints()
      reads this
    {
      ConstraintsMet(income, hasHousing, hasRoommates, numRoommates)
    }

    /** Pressing the submit button: the browser fires the submit event, and so
        `handleSubmit`, only when the number inputs pass its validation. */
    method Submit() returns (submitted: Option<Payload>)
      ensures submitted.Some? <==> IsFormValid() && MeetsConstraints()
      ensures submitted.Some? ==> hasHousing.Some? && submitted == Some(PayloadOf(
        postcode, city, workplacePostcode, workplaceCity, income, hasHousing.value, hasRoommates, numRoommates))
      ensures submitted.Some? ==> submitted.value.income.Finite? && submitted.value.income.value >= 0.0
    {
      if !MeetsConstraints() {
        return None;
      }
      submitted := HandleSubmit();
    }

    /** `handleSubmit`: the payload is handed on exactly when the form is
        valid; the form itself is left as it is. */
    method HandleSubmit() returns (submitted: Option<Payload>)
      ensures submitted.Some? <==> IsFormValid()
      ensures submitted.Some? ==> hasHousing.Some? && submitted == Some(PayloadOf(
        postcode, city, workplacePostcode, workplaceCity, income, hasHousing.value, hasRoommates, numRoommates))
    {
      var isFormValid := Truthy(postcode) && Truthy(city) && Truthy(workplacePostcode) && Truthy(workplaceCity)
        && Truthy(income) && hasHousing.Some?
        && (hasHousing == Some(false) || (hasRoommates.Some? && (hasRoommates == Some(false) || Truthy(numRoommates))));
      if isFormValid {
        submitted := Some(PayloadOf(postcode, city, workplacePostcode, workplaceCity, income,
                                    hasHousing.value, hasRoommates, numRoommates));
      } else {
        submitted := None;
      }
    }
  }
}
