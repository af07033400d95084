/** VAT payable and its surcharges, as the tax engine computes them. */
module Tax {
  import opened Prelude
  import opened Money

  datatype TaxpayerType = General | SmallScale | OtherTaxpayer

  datatype Location = City | Town | Elsewhere

  /** The levy rate is levyNum / levyDen. */
  datatype VATInput = VATInput(taxpayer: TaxpayerType, outputTax: int, inputTax: int, sales: int,
                               levyNum: int, levyDen: int)

  datatype VATOutput = VATOutput(outputTax: int, inputTax: int, payable: int, urban: int, education: int,
                                 localEducation: int, total: int)

  datatype TaxError = NegativeAmount | UnknownTaxpayer

  function UrbanRate(loc: Location): int {
    match loc case City => 7 case Town => 5 case Elsewhere => 1
  }

  function Percent(amount: int, rate: int): int { Round(amount * rate, 100) }

  function Payable(input: VATInput): Result<int, TaxError>
    requires input.levyDen > 0
  {
    match input.taxpayer
    case General => Success(input.outputTax - input.inputTax)
    case SmallScale =>
      Success(if input.levyNum <= 0 then Percent(input.sales, 3) else Round(input.sales * input.levyNum, input.levyDen))
    case OtherTaxpayer => Failure(UnknownTaxpayer)
  }

  function WithSurcharges(outputTax: int, inputTax: int, payable: int, urbanRate: int): VATOutput {
    var urban := Percent(payable, urbanRate);
    var education := Percent(payable, 3);
    var localEducation := Percent(payable, 2);
    VATOutput(outputTax, inputTax, payable, urban, education, localEducation,
              payable + urban + education + localEducation)
  }

  function Calculate(input: VATInput): Result<VATOutput, TaxError>
    requires input.levyDen > 0
  {
    if input.outputTax < 0 || input.inputTax < 0 || input.sales < 0 then Failure(NegativeAmount)
    else
      match Payable(input)
      case Failure(e) => Failure(e)
      case Success(p) => Success(WithSurcharges(input.outputTax, input.inputTax, Max(p, 0), UrbanRate(City)))
  }

  function CalculateWithLocation(input: VATInput, loc: Location): Result<VATOutput, TaxError>
    requires input.levyDen > 0
  {
    match Calculate(input)
    case Failure(e) => Failure(e)
    case Success(o) =>
      var urban := Percent(o.payable, UrbanRate(loc));
      Success(o.(urban := urban, total := o.payable + urban + o.education + o.localEducation))
  }

  /**
   Every amount is non-negative, and the burden lies within the three half-cent roundings of 112% of the tax
   payable in a city.
   */
  lemma BurdenIsBounded(input: VATInput)
    requires input.levyDen > 0 && Calculate(input).Success?
    ensures var o := Calculate(input).value;
            && o.payable >= 0 && o.urban >= 0 && o.education >= 0 && o.localEducation >= 0
            && 200 * o.total <= 224 * o.payable + 300
            && 200 * o.total >= 224 * o.payable - 300
  {
  }

  /** Outside a city only the urban construction tax differs, and it is never higher. */
  lemma LocationOnlyLowersUrbanTax(input: VATInput, loc: Location)
    requires input.levyDen > 0 && Calculate(input).Success?
    ensures var o := Calculate(input).value;
            var l := CalculateWithLocation(input, loc).value;
            && l.payable == o.payable && l.urban <= o.urban && o.total - l.total == o.urban - l.urban
            && (loc == City ==> l == o)
  {
    var p := Calculate(input).value.payable;
    RoundMonotone(p * UrbanRate(loc), p * 7, 100);
  }

  /** A taxpayer that owes more before surcharges never owes less after them. */
  lemma BurdenIsMonotone(a: VATInput, b: VATInput)
    requires a.levyDen > 0 && b.levyDen > 0 && Calculate(a).Success? && Calculate(b).Success?
    requires Calculate(a).value.payable <= Calculate(b).value.payable
    ensures Calculate(a).value.total <= Calculate(b).value.total
  {
    var p, q := Calculate(a).value.payable, Calculate(b).value.payable;
    RoundMonotone(p * 7, q * 7, 100);
    RoundMonotone(p * 3, q * 3, 100);
    RoundMonotone(p * 2, q * 2, 100);
  }

  /**
   Which inputs are refused, and the tax payable of the others: output less input tax for a general taxpayer, never
   below zero, and the levy rate on the sales, 3% when none is given, for a small one.
   */
  lemma PayableIs(input: VATInput)
    requires input.levyDen > 0
    ensures Calculate(input) == Failure(NegativeAmount)
            <==> input.outputTax < 0 || input.inputTax < 0 || input.sales < 0
    ensures Calculate(input) == Failure(UnknownTaxpayer)
            <==> input.outputTax >= 0 && input.inputTax >= 0 && input.sales >= 0 && input.taxpayer == OtherTaxpayer
    ensures Calculate(input).Success? ==>
              var o := Calculate(input).value;
              && o.outputTax == input.outputTax && o.inputTax == input.inputTax
              && (input.taxpayer == General ==>
                    (input.outputTax >= input.inputTax ==> o.payable + input.inputTax == input.outputTax)
                    && (input.outputTax <= input.inputTax ==> o.payable == 0))
              && (input.taxpayer == SmallScale && input.levyNum <= 0 ==> Nearest(o.payable, 3 * input.sales, 100))
              && (input.taxpayer == SmallScale && input.levyNum > 0 ==>
                    Nearest(o.payable, input.sales * input.levyNum, input.levyDen))
  {
    if input.sales >= 0 {
      RoundIsNearest(Percent(input.sales, 3), input.sales * 3, 100);
      if input.levyNum > 0 {
        MulMono(input.levyNum, 0, input.sales);
        RoundIsNearest(Round(input.sales * input.levyNum, input.levyDen), input.sales * input.levyNum, input.levyDen);
      }
    }
  }

  /** The surcharges are each the nearest cent to their percentage of the tax payable, and the total is the sum. */
  lemma SurchargesAre(input: VATInput, loc: Location)
    requires input.levyDen > 0
    ensures Calculate(input).Failure? ==> CalculateWithLocation(input, loc) == Calculate(input)
    ensures Calculate(input).Success? ==>
              CalculateWithLocation(input, loc).Success?
              && var o := CalculateWithLocation(input, loc).value;
                 && Nearest(o.urban, o.payable * (if loc == City then 7 else if loc == Town then 5 else 1), 100)
                 && Nearest(o.education, o.payable * 3, 100) && Nearest(o.localEducation, o.payable * 2, 100)
                 && o.total == o.payable + o.urban + o.education + o.localEducation
  {
    if Calculate(input).Success? {
      var p := Calculate(input).value.payable;
      RoundIsNearest(Percent(p, UrbanRate(loc)), p * UrbanRate(loc), 100);
      RoundIsNearest(Percent(p, 3), p * 3, 100);
      RoundIsNearest(Percent(p, 2), p * 2, 100);
    }
  }
}
