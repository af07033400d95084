/**
 Monthly withholding of individual income tax by the cumulative method.  Amounts are cents, rates percent, so
 a rate times an amount is in hundredths of a cent.
 */
module Pit {
  import opened Prelude
  import opened Money

  const YUAN := 100

  // ---- The rate table ----

  function Rate(income: int): int {
    if income <= 36000 * YUAN then 3
    else if income <= 144000 * YUAN then 10
    else if income <= 300000 * YUAN then 20
    else if income <= 420000 * YUAN then 25
    else if income <= 660000 * YUAN then 30
    else if income <= 960000 * YUAN then 35
    else 45
  }

  function QuickDeduction(income: int): int {
    if income <= 36000 * YUAN then 0
    else if income <= 144000 * YUAN then 2520 * YUAN
    else if income <= 300000 * YUAN then 16920 * YUAN
    else if income <= 420000 * YUAN then 31920 * YUAN
    else if income <= 660000 * YUAN then 52920 * YUAN
    else if income <= 960000 * YUAN then 85920 * YUAN
    else 181920 * YUAN
  }

  function RawTax(income: int): int { income * Rate(income) - 100 * QuickDeduction(income) }

  /** A band of the progressive table: what lies above floor is taxed at rate. */
  datatype Band = Band(floor: int, rate: int)

  /** The comprehensive-income table, lowest band first. */
  const BANDS := [ Band(0, 3), Band(36000 * YUAN, 10), Band(144000 * YUAN, 20), Band(300000 * YUAN, 25),
                   Band(420000 * YUAN, 30), Band(660000 * YUAN, 35), Band(960000 * YUAN, 45) ]

  /** The part of the income that lies in band i. */
  function Slice(income: int, bands: seq<Band>, i: nat): int
    requires i < |bands|
  {
    var top := if i + 1 < |bands| && bands[i + 1].floor < income then bands[i + 1].floor else income;
    Max(top - bands[i].floor, 0)
  }

  /** Each slice at its own rate, over the first n bands. */
  function MarginalTax(income: int, bands: seq<Band>, n: nat): int
    requires n <= |bands|
  {
    if n == 0 then 0 else MarginalTax(income, bands, n - 1) + bands[n - 1].rate * Slice(income, bands, n - 1)
  }

  /** One rate with a quick deduction taxes every slice of the income at its own marginal rate. */
  lemma {:induction false} QuickDeductionIsMarginal(income: nat)
    ensures RawTax(income) == MarginalTax(income, BANDS, |BANDS|)
  {
    assert MarginalTax(income, BANDS, 0) == 0;
    var t1 := MarginalTax(income, BANDS, 1);
    assert t1 == 3 * Slice(income, BANDS, 0);
    var t2 := MarginalTax(income, BANDS, 2);
    assert t2 == t1 + 10 * Slice(income, BANDS, 1);
    var t3 := MarginalTax(income, BANDS, 3);
    assert t3 == t2 + 20 * Slice(income, BANDS, 2);
    var t4 := MarginalTax(income, BANDS, 4);
    assert t4 == t3 + 25 * Slice(income, BANDS, 3);
    var t5 := MarginalTax(income, BANDS, 5);
    assert t5 == t4 + 30 * Slice(income, BANDS, 4);
    var t6 := MarginalTax(income, BANDS, 6);
    assert t6 == t5 + 35 * Slice(income, BANDS, 5);
  }

  /** The tax on a cumulative taxable income. */
  function AccumulatedTax(income: int): int { Max(Round(RawTax(income), 100), 0) }

  /** Between two incomes the tax rises by 3% to 45% of the difference. */
  lemma RawTaxSlope(a: nat, b: nat)
    requires a <= b
    ensures 3 * (b - a) <= RawTax(b) - RawTax(a) <= 45 * (b - a)
    ensures RawTax(a) >= 0
  {
  }

  /** After rounding, more income never means less tax, nor less left after tax. */
  lemma TaxIsMonotone(a: nat, b: nat)
    requires a <= b
    ensures 0 <= AccumulatedTax(a) <= AccumulatedTax(b) <= b
    ensures a - AccumulatedTax(a) <= b - AccumulatedTax(b)
  {
    RawTaxSlope(a, b);
    RawTaxSlope(0, b);
    RoundMonotone(RawTax(a), RawTax(b), 100);
    RoundMonotone(RawTax(b), RawTax(a) + (b - a) * 100, 100);
    RoundShift(RawTax(a), b - a, 100);
    RoundMonotone(RawTax(b), b * 100, 100);
    RoundWhole(b, 100);
  }

  // ---- One month ----

  datatype Items = Items(children: int, continuing: bool, housingLoan: bool, rentTier: int, elderly: int, infants: int)

  function MonthlyAdditional(items: Items): int {
    ( items.children * 2000
      + (if items.continuing then 400 else 0)
      + (if items.housingLoan then 1000 else 0)
      + (match items.rentTier case 1 => 1500 case 2 => 1100 case 3 => 800 case _ => 0)
      + (if items.elderly == 1 then 3000
         else if items.elderly > 1 then (if items.elderly > 1500 then 1500 else items.elderly)
         else 0)
      + items.infants * 2000 ) * YUAN
  }

  datatype Input = Input(monthlySalary: int, accumulatedSalary: int, months: int, special: int, additional: int,
                         other: int, prepaid: int, items: Option<Items>)

  datatype Output = Output(taxableIncome: int, rate: int, quickDeduction: int, accumulatedTax: int,
                           currentMonthTax: int)

  datatype PitError = BadSalary | BadMonths | BadDeductions | SalaryBelowMonth

  function Additional(input: Input): int {
    if input.items.Some? && input.additional == 0 then MonthlyAdditional(input.items.value) * input.months
    else input.additional
  }

  function TaxableIncome(input: Input): nat {
    Max(input.accumulatedSalary
        - (input.months * 5000 * YUAN + input.special + Additional(input) + input.other), 0)
  }

  function Refusal(input: Input): Option<PitError> {
    if input.monthlySalary < 0 || input.accumulatedSalary < 0 then Some(BadSalary)
    else if input.months < 1 then Some(BadMonths)
    else if input.special < 0 || input.additional < 0 || input.other < 0 || input.prepaid < 0 then Some(BadDeductions)
    else if input.accumulatedSalary < input.monthlySalary then Some(SalaryBelowMonth)
    else None
  }

  function Assess(income: nat, prepaid: int): Output {
    var tax := AccumulatedTax(income);
    Output(income, Rate(income), QuickDeduction(income), tax, Max(tax - prepaid, 0))
  }

  function CalcPIT(input: Input): Result<Output, PitError> {
    match Refusal(input)
    case Some(e) => Failure(e)
    case None => Success(Assess(TaxableIncome(input), input.prepaid))
  }

  // ---- A year ----

  /** What has been withheld once this month is told what was withheld before it. */
  function PaidAfter(paid: nat, input: Input): nat {
    match CalcPIT(input.(prepaid := paid))
    case Failure(_) => paid
    case Success(o) => paid + o.currentMonthTax
  }

  function Withheld(months: seq<Input>): nat {
    if months == [] then 0 else PaidAfter(Withheld(months[..|months| - 1]), months[|months| - 1])
  }

  /** The accumulated tax of one month, or none for a month that is refused. */
  function MonthTax(input: Input): int {
    match CalcPIT(input.(prepaid := 0))
    case Failure(_) => 0
    case Success(o) => o.accumulatedTax
  }

  lemma PrepaidIsNoIncome(input: Input, paid: nat)
    ensures TaxableIncome(input.(prepaid := paid)) == TaxableIncome(input.(prepaid := 0)) == TaxableIncome(input)
  {
    assert Additional(input.(prepaid := paid)) == Additional(input.(prepaid := 0)) == Additional(input);
  }

  lemma MonthTaxIs(input: Input)
    ensures CalcPIT(input.(prepaid := 0)).Success? ==> MonthTax(input) == AccumulatedTax(TaxableIncome(input))
    ensures MonthTax(input) >= 0
  {
    PrepaidIsNoIncome(input, 0);
  }

  /** Over any months, the tax withheld is the largest accumulated tax seen so far. */
  lemma {:induction false} WithheldIsLargest(months: seq<Input>)
    ensures forall i :: 0 <= i < |months| ==> MonthTax(months[i]) <= Withheld(months)
    ensures Withheld(months) == 0 || exists i :: 0 <= i < |months| && MonthTax(months[i]) == Withheld(months)
  {
    if months != [] {
      var n := |months| - 1;
      var before := months[..n];
      WithheldIsLargest(before);
      PrepaidIsNoIncome(months[n], Withheld(before));
      MonthTaxIs(months[n]);
      assert Withheld(months) == Max(Withheld(before), MonthTax(months[n]));
      forall i | 0 <= i < n ensures MonthTax(months[i]) <= Withheld(months) {
        assert before[i] == months[i];
      }
      if Withheld(months) == Withheld(before) != 0 {
        var i :| 0 <= i < n && MonthTax(before[i]) == Withheld(before);
        assert months[i] == before[i];
      }
    }
  }

  /** It is the last month's accumulated tax exactly when no earlier month's was higher. */
  lemma {:induction false} WithheldIsLast(months: seq<Input>)
    requires months != []
    ensures Withheld(months) == MonthTax(months[|months| - 1])
            <==> forall i :: 0 <= i < |months| ==> MonthTax(months[i]) <= MonthTax(months[|months| - 1])
  {
    WithheldIsLargest(months);
    MonthTaxIs(months[|months| - 1]);
  }

  // ---- What is deducted ----

  /** Each item adds its own amount to the monthly deduction, and without any there is none. */
  lemma EachItemAdds(items: Items)
    ensures MonthlyAdditional(Items(0, false, false, 0, 0, 0)) == 0
    ensures MonthlyAdditional(items.(children := items.children + 1)) == MonthlyAdditional(items) + 2000 * YUAN
    ensures MonthlyAdditional(items.(infants := items.infants + 1)) == MonthlyAdditional(items) + 2000 * YUAN
    ensures MonthlyAdditional(items.(continuing := true))
            == MonthlyAdditional(items.(continuing := false)) + 400 * YUAN
    ensures MonthlyAdditional(items.(housingLoan := true))
            == MonthlyAdditional(items.(housingLoan := false)) + 1000 * YUAN
  {
  }

  /** So does rent, by its tier. */
  lemma RentAdds(items: Items, tier: int)
    ensures MonthlyAdditional(items.(rentTier := tier)) - MonthlyAdditional(items.(rentTier := 0))
            == (if tier == 1 then 1500 else if tier == 2 then 1100 else if tier == 3 then 800 else 0) * YUAN
  {
  }

  /** And support of the elderly: 3000 yuan for an only child, or the shared amount, of at most 1500. */
  lemma ElderlyAdds(items: Items, elderly: int)
    ensures var adds := MonthlyAdditional(items.(elderly := elderly)) - MonthlyAdditional(items.(elderly := 0));
            && (elderly < 1 ==> adds == 0) && (elderly == 1 ==> adds == 3000 * YUAN)
            && (1 < elderly <= 1500 ==> adds == elderly * YUAN) && (1500 < elderly ==> adds == 1500 * YUAN)
  {
  }

  /** The inputs that are refused, by the first rule they break. */
  lemma RefusedExactly(input: Input)
    ensures CalcPIT(input) == Failure(BadSalary) <==> input.monthlySalary < 0 || input.accumulatedSalary < 0
    ensures CalcPIT(input) == Failure(BadMonths)
            <==> input.monthlySalary >= 0 && input.accumulatedSalary >= 0 && input.months < 1
    ensures CalcPIT(input) == Failure(BadDeductions)
            <==> && input.monthlySalary >= 0 && input.accumulatedSalary >= 0 && input.months >= 1
                 && (input.special < 0 || input.additional < 0 || input.other < 0 || input.prepaid < 0)
    ensures CalcPIT(input).Success?
            <==> && 0 <= input.monthlySalary <= input.accumulatedSalary && input.months >= 1
                 && input.special >= 0 && input.additional >= 0 && input.other >= 0 && input.prepaid >= 0
  {
  }

  /**
   5000 yuan a month, the special and other deductions, and the additional ones as they were typed or, if none
   were, as many times the monthly items as there are months.
   */
  function Deducted(input: Input): int {
    var typed := input.additional != 0 || input.items.None?;
    5000 * YUAN * input.months + input.special + input.other
    + if typed then input.additional else input.months * MonthlyAdditional(input.items.value)
  }

  function Left(input: Input): nat { Max(input.accumulatedSalary - Deducted(input), 0) }

  lemma AdditionalIs(input: Input)
    ensures Additional(input)
            == if input.additional != 0 || input.items.None? then input.additional
               else input.months * MonthlyAdditional(input.items.value)
  {
  }

  lemma LeftIsTaxable(input: Input)
    ensures TaxableIncome(input) == Left(input)
  {
    AdditionalIs(input);
  }

  /** What is left of the salary after the deductions is taxed, and nothing if they exceed it. */
  lemma IncomeIsSalaryLessDeductions(input: Input)
    requires CalcPIT(input).Success?
    ensures var income := CalcPIT(input).value.taxableIncome;
            && (Deducted(input) <= input.accumulatedSalary ==> income + Deducted(input) == input.accumulatedSalary)
            && (Deducted(input) > input.accumulatedSalary ==> income == 0)
  {
    LeftIsTaxable(input);
  }

  function IncomeOf(input: Input): int {
    match CalcPIT(input) case Failure(_) => -1 case Success(o) => o.taxableIncome
  }

  /** One cent more of any deduction takes one cent off a taxable income. */
  lemma CentByCent(input: Input)
    requires CalcPIT(input).Success? && IncomeOf(input) > 0
    ensures IncomeOf(input.(special := input.special + 1)) == IncomeOf(input) - 1
    ensures IncomeOf(input.(other := input.other + 1)) == IncomeOf(input) - 1
    ensures input.items.None? || input.additional > 0
            ==> IncomeOf(input.(additional := input.additional + 1)) == IncomeOf(input) - 1
  {
    assert Additional(input.(special := input.special + 1)) == Additional(input);
    assert Additional(input.(other := input.other + 1)) == Additional(input);
  }

  /** The tax that the bands take from an income. */
  function TaxByBands(income: int): int { MarginalTax(income, BANDS, |BANDS|) }

  lemma AccumulatedByBands(income: nat)
    ensures RawTax(income) == TaxByBands(income) && Nearest(AccumulatedTax(income), TaxByBands(income), 100)
  {
    QuickDeductionIsMarginal(income);
    RawTaxSlope(income, income);
    RoundIsNearest(AccumulatedTax(income), RawTax(income), 100);
  }

  /** The rate is that of the band in which the income lies. */
  lemma RateOfBand(income: nat, i: nat)
    requires i < |BANDS| && (i > 0 ==> BANDS[i].floor < income)
    requires i + 1 < |BANDS| ==> income <= BANDS[i + 1].floor
    ensures Rate(income) == BANDS[i].rate
  {
  }

  /**
   The rest of the output: rate and quick deduction give the tax by bands, of which the accumulated tax is the nearest
   cent, and the month's is what of it has not been prepaid.
   */
  lemma OutputFollows(input: Input)
    requires CalcPIT(input).Success?
    ensures var o := CalcPIT(input).value;
            && o.rate == Rate(o.taxableIncome)
            && o.rate * o.taxableIncome - 100 * o.quickDeduction == TaxByBands(o.taxableIncome)
            && Nearest(o.accumulatedTax, TaxByBands(o.taxableIncome), 100)
            && (input.prepaid <= o.accumulatedTax ==> o.currentMonthTax + input.prepaid == o.accumulatedTax)
            && (input.prepaid >= o.accumulatedTax ==> o.currentMonthTax == 0)
  {
    AccumulatedByBands(CalcPIT(input).value.taxableIncome);
  }

  lemma MonthTaxIsOnLeft(input: Input)
    requires CalcPIT(input.(prepaid := 0)).Success?
    ensures MonthTax(input) == AccumulatedTax(Left(input))
  {
    LeftIsTaxable(input);
    MonthTaxIs(input);
  }

  /**
   While the salary left after the deductions ends highest, the tax withheld over the months is what the bands take
   from the last month's, to the nearest cent, and no more.
   */
  lemma {:induction false} RisingIncomeIsSettled(months: seq<Input>)
    requires months != []
    requires forall i :: 0 <= i < |months| ==> CalcPIT(months[i].(prepaid := 0)).Success?
    requires forall i :: 0 <= i < |months| ==> Left(months[i]) <= Left(months[|months| - 1])
    ensures Nearest(Withheld(months), TaxByBands(Left(months[|months| - 1])), 100)
  {
    var last := months[|months| - 1];
    MonthTaxIsOnLeft(last);
    forall i | 0 <= i < |months| ensures MonthTax(months[i]) <= MonthTax(last) {
      MonthTaxIsOnLeft(months[i]);
      TaxIsMonotone(Left(months[i]), Left(last));
    }
    WithheldIsLast(months);
    AccumulatedByBands(Left(last));
  }
}
