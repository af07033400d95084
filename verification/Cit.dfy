/** Corporate income tax: quarterly prepayments and the annual settlement.  A rate is num / den. */
module Cit {
  import opened Prelude
  import opened Money

  const YUAN := 100

  datatype Fraction = Fraction(num: int, den: int)

  datatype CitError = NegativeProfit | BadRate

  predicate GoodRate(rate: Fraction) { rate.den > 0 && 0 < rate.num <= rate.den }

  function TaxAt(income: int, rate: Fraction): int
    requires rate.den > 0
  {
    Round(income * rate.num, rate.den)
  }

  lemma TaxAtMonotone(a: int, b: int, rate: Fraction)
    requires GoodRate(rate) && a <= b
    ensures TaxAt(a, rate) <= TaxAt(b, rate)
    ensures 0 <= a ==> 0 <= TaxAt(a, rate) <= a
  {
    MulMono(rate.num, a, b);
    assert rate.num * a == a * rate.num && rate.num * b == b * rate.num;
    RoundMonotone(a * rate.num, b * rate.num, rate.den);
    if 0 <= a {
      MulMono(a, rate.num, rate.den);
      RoundMonotone(a * rate.num, a * rate.den, rate.den);
      RoundWhole(a, rate.den);
      MulMono(a, 0, rate.num);
    }
  }

  function QuarterlyPrepay(profit: int, rate: Fraction, paid: int): Result<int, CitError> {
    if profit < 0 then Failure(NegativeProfit)
    else if !GoodRate(rate) then Failure(BadRate)
    else Success(Max(TaxAt(profit, rate) - paid, 0))
  }

  /** What has been prepaid after some quarters with these cumulative profits; a refused quarter pays nothing. */
  function Prepaid(profits: seq<int>, rate: Fraction): nat {
    if profits == [] then 0
    else
      var paid := Prepaid(profits[..|profits| - 1], rate);
      match QuarterlyPrepay(profits[|profits| - 1], rate, paid)
      case Failure(_) => paid
      case Success(p) => paid + p
  }

  function QuarterTax(profit: int, rate: Fraction): int {
    if profit < 0 || !GoodRate(rate) then 0 else TaxAt(profit, rate)
  }

  /** Over any quarters, the prepayments add up to the largest cumulative tax seen so far. */
  lemma {:induction false} PrepaidIsLargest(profits: seq<int>, rate: Fraction)
    ensures forall i :: 0 <= i < |profits| ==> QuarterTax(profits[i], rate) <= Prepaid(profits, rate)
    ensures Prepaid(profits, rate) == 0
            || exists i :: 0 <= i < |profits| && QuarterTax(profits[i], rate) == Prepaid(profits, rate)
  {
    if profits != [] {
      var n := |profits| - 1;
      var before := profits[..n];
      PrepaidIsLargest(before, rate);
      assert Prepaid(profits, rate) == Max(Prepaid(before, rate), QuarterTax(profits[n], rate));
      forall i | 0 <= i < n ensures QuarterTax(profits[i], rate) <= Prepaid(profits, rate) {
        assert before[i] == profits[i];
      }
      if Prepaid(profits, rate) == Prepaid(before, rate) != 0 {
        var i :| 0 <= i < n && QuarterTax(before[i], rate) == Prepaid(before, rate);
        assert profits[i] == before[i];
      }
    }
  }

  // ---- Settlement ----

  /** Small low-profit enterprises: 5% up to a million yuan, 10% on the next two million, 25% of all above. */
  function SmallProfitTax(income: int): int {
    if income <= 0 then 0
    else if income <= 1000000 * YUAN then Round(income * 5, 100)
    else if income <= 3000000 * YUAN then Round(1000000 * YUAN * 5 + (income - 1000000 * YUAN) * 10, 100)
    else Round(income * 25, 100)
  }

  datatype Settlement = Settlement(taxableIncome: int, deduction: int, taxPayable: int, taxDue: int)

  function AnnualSettlement(profit: int, adjustments: int, rate: Fraction, prepaid: int, smallProfit: bool)
    : Result<Settlement, CitError>
  {
    if !GoodRate(rate) then Failure(BadRate)
    else
      var income := Max(profit + adjustments, 0);
      var payable := if smallProfit && income <= 3000000 * YUAN then SmallProfitTax(income) else TaxAt(income, rate);
      Success(Settlement(income, Max(TaxAt(income, rate) - payable, 0), payable, payable - prepaid))
  }

  /**
   Prepayments and settlement together collect the annual tax exactly, and the settlement is a refund exactly
   when some quarter's cumulative tax was above it.
   */
  lemma YearIsSettled(profits: seq<int>, profit: int, adjustments: int, rate: Fraction, smallProfit: bool)
    requires GoodRate(rate)
    ensures var s := AnnualSettlement(profit, adjustments, rate, Prepaid(profits, rate), smallProfit).value;
            && Prepaid(profits, rate) + s.taxDue == s.taxPayable
            && 0 <= s.taxPayable <= s.taxableIncome
            && (s.taxDue < 0 <==> exists i :: 0 <= i < |profits| && QuarterTax(profits[i], rate) > s.taxPayable)
  {
    var s := AnnualSettlement(profit, adjustments, rate, Prepaid(profits, rate), smallProfit).value;
    PrepaidIsLargest(profits, rate);
    TaxAtMonotone(s.taxableIncome, s.taxableIncome, rate);
    SmallProfitIsMonotone(s.taxableIncome, s.taxableIncome);
    if s.taxDue < 0 {
      var i :| 0 <= i < |profits| && QuarterTax(profits[i], rate) == Prepaid(profits, rate);
      assert QuarterTax(profits[i], rate) > s.taxPayable;
    }
  }

  /** At the ordinary rate no refund is due if taxable income ends at or above every cumulative profit. */
  lemma {:induction false} RisingProfitOwesNoRefund(profits: seq<int>, profit: int, adjustments: int, rate: Fraction)
    requires GoodRate(rate)
    requires forall i :: 0 <= i < |profits| ==> profits[i] <= Max(profit + adjustments, 0)
    ensures AnnualSettlement(profit, adjustments, rate, Prepaid(profits, rate), false).value.taxDue >= 0
  {
    YearIsSettled(profits, profit, adjustments, rate, false);
    forall i | 0 <= i < |profits|
      ensures QuarterTax(profits[i], rate) <= TaxAt(Max(profit + adjustments, 0), rate)
    {
      TaxAtMonotone(profits[i], Max(profit + adjustments, 0), rate);
      TaxAtMonotone(Max(profit + adjustments, 0), Max(profit + adjustments, 0), rate);
    }
  }

  // ---- What the settlement says ----

  const MILLION := 1000000 * YUAN

  /** 5% of the first million yuan and 10% of the rest. */
  function SmallBands(income: nat): int {
    5 * (if income < MILLION then income else MILLION) + 10 * (if income < MILLION then 0 else income - MILLION)
  }

  /** The refusal, and what is taxed: profit after adjustments, or nothing if that is a loss. */
  lemma SettledIncome(profit: int, adjustments: int, rate: Fraction, prepaid: int, smallProfit: bool)
    ensures var r := AnnualSettlement(profit, adjustments, rate, prepaid, smallProfit);
            && (r.Failure? <==> rate.den <= 0 || rate.num <= 0 || rate.num > rate.den)
            && (r.Success? && profit + adjustments >= 0 ==> r.value.taxableIncome == profit + adjustments)
            && (r.Success? && profit + adjustments <= 0 ==> r.value.taxableIncome == 0)
            && (r.Success? ==> r.value.taxDue + prepaid == r.value.taxPayable)
  {
  }

  /**
   Up to three million yuan a small low-profit enterprise pays the two bands, to the nearest cent; everyone else, and
   it too above that, pays the nearest cent to the ordinary rate.
   */
  lemma SettlementPays(profit: int, adjustments: int, rate: Fraction, prepaid: int, smallProfit: bool)
    requires GoodRate(rate)
    ensures var s := AnnualSettlement(profit, adjustments, rate, prepaid, smallProfit).value;
            && s.taxableIncome >= 0
            && if smallProfit && s.taxableIncome <= 3 * MILLION
               then Nearest(s.taxPayable, SmallBands(s.taxableIncome), 100)
               else Nearest(s.taxPayable, s.taxableIncome * rate.num, rate.den)
  {
    var s := AnnualSettlement(profit, adjustments, rate, prepaid, smallProfit).value;
    RoundIsNearest(TaxAt(s.taxableIncome, rate), s.taxableIncome * rate.num, rate.den);
    if smallProfit && s.taxableIncome <= 3 * MILLION {
      RoundIsNearest(s.taxPayable, SmallBands(s.taxableIncome), 100);
    }
  }

  /** The deduction is what the tax payable falls short of the nearest cent to the ordinary rate, if it does. */
  lemma DeductionIsDifference(profit: int, adjustments: int, rate: Fraction, prepaid: int, smallProfit: bool,
                              ordinary: int)
    requires GoodRate(rate)
    requires var s := AnnualSettlement(profit, adjustments, rate, prepaid, smallProfit).value;
             Nearest(ordinary, s.taxableIncome * rate.num, rate.den)
    ensures var s := AnnualSettlement(profit, adjustments, rate, prepaid, smallProfit).value;
            && (s.taxPayable <= ordinary ==> s.deduction + s.taxPayable == ordinary)
            && (s.taxPayable >= ordinary ==> s.deduction == 0)
  {
    var s := AnnualSettlement(profit, adjustments, rate, prepaid, smallProfit).value;
    RoundIsNearest(ordinary, s.taxableIncome * rate.num, rate.den);
  }

  lemma SmallBelowOrdinary(income: nat, small: int, ordinary: int)
    requires income <= 3 * MILLION && Nearest(small, SmallBands(income), 100) && Nearest(ordinary, income * 25, 100)
    ensures small <= ordinary && (small < ordinary <==> income >= 2)
  {
  }

  /**
   At 25% tax payable and deduction always add up to the ordinary tax, and a small low-profit enterprise gets a
   deduction exactly on incomes from two cents to three million yuan.
   */
  lemma QuarterRateDeduction(profit: int, adjustments: int, prepaid: int, smallProfit: bool)
    ensures var s := AnnualSettlement(profit, adjustments, Fraction(25, 100), prepaid, smallProfit).value;
            && Nearest(s.taxPayable + s.deduction, s.taxableIncome * 25, 100)
            && (s.deduction > 0 <==> smallProfit && 2 <= s.taxableIncome <= 3 * MILLION)
  {
    var s := AnnualSettlement(profit, adjustments, Fraction(25, 100), prepaid, smallProfit).value;
    var ordinary := TaxAt(s.taxableIncome, Fraction(25, 100));
    RoundIsNearest(ordinary, s.taxableIncome * 25, 100);
    SettlementPays(profit, adjustments, Fraction(25, 100), prepaid, smallProfit);
    if smallProfit && s.taxableIncome <= 3 * MILLION {
      SmallBelowOrdinary(s.taxableIncome, s.taxPayable, ordinary);
    }
  }

  /** A quarter's cumulative tax is the nearest cent to the rate, and what it still asks for is what is not yet paid. */
  lemma QuarterPays(profit: int, rate: Fraction, paid: int)
    ensures QuarterlyPrepay(profit, rate, paid) == Failure(NegativeProfit) <==> profit < 0
    ensures QuarterlyPrepay(profit, rate, paid) == Failure(BadRate)
            <==> profit >= 0 && (rate.den <= 0 || rate.num <= 0 || rate.num > rate.den)
    ensures QuarterlyPrepay(profit, rate, paid).Success? ==>
              var prepay := QuarterlyPrepay(profit, rate, paid).value;
              && Nearest(QuarterTax(profit, rate), profit * rate.num, rate.den)
              && (paid <= QuarterTax(profit, rate) ==> prepay + paid == QuarterTax(profit, rate))
              && (paid >= QuarterTax(profit, rate) ==> prepay == 0)
  {
    if GoodRate(rate) {
      RoundIsNearest(TaxAt(profit, rate), profit * rate.num, rate.den);
    }
  }

  lemma SmallProfitIsMonotone(a: int, b: int)
    requires a <= b
    ensures 0 <= SmallProfitTax(a) <= SmallProfitTax(b)
    ensures 0 <= b ==> SmallProfitTax(b) <= b
  {
    if 0 < a {
      RoundMonotone(RawSmall(a), RawSmall(b), 100);
    }
    if 0 < b {
      RoundMonotone(RawSmall(b), b * 100, 100);
      RoundWhole(b, 100);
    }
  }

  function RawSmall(income: int): int {
    if income <= 1000000 * YUAN then income * 5
    else if income <= 3000000 * YUAN then 1000000 * YUAN * 5 + (income - 1000000 * YUAN) * 10
    else income * 25
  }

  /** Up to three million yuan, earning more leaves more after tax. */
  lemma SmallProfitKeepsMore(a: nat, b: nat)
    requires a <= b <= 3000000 * YUAN
    ensures a - SmallProfitTax(a) <= b - SmallProfitTax(b)
  {
    if 0 < a {
      RoundMonotone(RawSmall(b), RawSmall(a) + (b - a) * 100, 100);
      RoundShift(RawSmall(a), b - a, 100);
    } else {
      SmallProfitIsMonotone(b, b);
    }
  }

  /** Past it there is a cliff: up to 3666666.66 yuan leaves less after tax than three million does. */
  lemma SmallProfitCliff(income: int)
    requires income > 3000000 * YUAN
    ensures income - SmallProfitTax(income) < 3000000 * YUAN - SmallProfitTax(3000000 * YUAN)
            <==> income <= 366666666
  {
    RoundWhole(25000000, 100);
  }
}
