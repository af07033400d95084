/** What the profit mappings seeded in the database add up to, for every list of journal lines. */
module SeededProfit {
  import opened Prelude
  import opened Report
  import RB = ReportBuilder

  function Leaf(code: string, order: int, prefixes: seq<string>): Mapping {
    Mapping(code, order, Selector(prefixes, "", []), false, None)
  }

  function Subtotal(code: string, order: int, formula: seq<string>): Mapping {
    Mapping(code, order, Selector([], "", []), true, Some(formula))
  }

  const REVENUE := Leaf("revenue", 1, ["6"])
  const COST := Leaf("cost", 2, ["5401", "5402"])
  const TAXES := Leaf("tax_and_surcharge", 3, ["5403"])
  const SELLING := Leaf("selling_expense", 4, ["5601"])
  const ADMIN := Leaf("admin_expense", 5, ["5602"])
  const FINANCE := Leaf("finance_expense", 6, ["5603"])
  const INVESTMENT := Leaf("investment_income", 7, ["6111"])
  const OPERATING := Subtotal("operating_profit", 8,
    ["revenue", "-", "cost", "-", "tax_and_surcharge", "-", "selling_expense", "-", "admin_expense", "-",
     "finance_expense", "+", "investment_income"])
  const NON_OP_INCOME := Leaf("non_op_income", 9, ["6301"])
  const NON_OP_EXPENSE := Leaf("non_op_expense", 10, ["6711"])
  const TOTAL := Subtotal("total_profit", 11, ["operating_profit", "+", "non_op_income", "-", "non_op_expense"])
  const INCOME_TAX := Leaf("income_tax", 12, ["6801"])
  const NET := Subtotal("net_profit", 13, ["total_profit", "-", "income_tax"])

  const SEEDED: seq<Mapping> := [ REVENUE, COST, TAXES, SELLING, ADMIN, FINANCE, INVESTMENT, OPERATING,
                                  NON_OP_INCOME, NON_OP_EXPENSE, TOTAL, INCOME_TAX, NET ]

  lemma SeededCodesDiffer()
    ensures forall i, j :: 0 <= i < j < 13 ==> SEEDED[i].code != SEEDED[j].code
  {
  }

  lemma SeededSubtotals(i: nat)
    requires i < 13 && Computed(SEEDED[i])
    ensures i == 7 || i == 10 || i == 12
  {
  }

  lemma SeededOperands(t: string)
    ensures t in OPERATING.formula.value ==> t != "operating_profit" && t != "total_profit" && t != "net_profit"
    ensures t in TOTAL.formula.value ==> t != "total_profit" && t != "net_profit"
    ensures t in NET.formula.value ==> t != "net_profit"
  {
  }

  lemma SeededIsWellOrdered()
    ensures WellOrdered(SEEDED)
  {
    SeededCodesDiffer();
    forall i, j | 0 <= i <= j < 13 && Computed(SEEDED[i]) && Computed(SEEDED[j])
      ensures !Operand(SEEDED[i].formula.value, SEEDED[j].code)
    {
      SeededSubtotals(i);
      SeededSubtotals(j);
      SeededOperands(SEEDED[j].code);
    }
  }

  // ---- Formulas of plus and minus always evaluate ----

  predicate PlusMinus(tokens: seq<string>) {
    forall j :: 0 <= j < |tokens| && j % 2 == 1 ==> tokens[j] == "+" || tokens[j] == "-"
  }

  lemma {:induction false} PlusMinusEvaluates(tokens: seq<string>, j: nat, amounts: Amounts, literals: Amounts)
    requires PlusMinus(tokens) && 2 * j < |tokens|
    ensures EvalUpTo(tokens, j, amounts, literals).Success?
  {
    if j > 0 {
      PlusMinusEvaluates(tokens, j - 1, amounts, literals);
      assert (2 * j - 1) % 2 == 1;
    }
  }

  lemma {:induction false} PlusMinusPasses(ms: seq<Mapping>, n: nat, amounts: Amounts, literals: Amounts)
    requires n <= |ms| && forall i :: 0 <= i < |ms| && Computed(ms[i]) ==> PlusMinus(ms[i].formula.value)
    ensures PassUpTo(ms, n, amounts, literals).Success?
  {
    if n > 0 {
      PlusMinusPasses(ms, n - 1, amounts, literals);
      if Computed(ms[n - 1]) && ms[n - 1].formula.value != [] {
        var tokens := ms[n - 1].formula.value;
        PlusMinusEvaluates(tokens, (|tokens| - 1) / 2, PassUpTo(ms, n - 1, amounts, literals).value, literals);
      }
    }
  }

  // ---- A code with a single mapping ----

  lemma {:induction false} OneMapping(l: Line, ms: seq<Mapping>, i: nat, n: nat)
    requires i < |ms| && n <= |ms|
    requires forall j :: 0 <= j < |ms| && j != i ==> ms[j].code != ms[i].code
    ensures LineSum(l, ms[..n], ms[i].code)
            == if i < n && !ms[i].isSubtotal && Matches(l, ms[i].selector) then l.amount else 0
  {
    if n > 0 {
      assert ms[..n][..n - 1] == ms[..n - 1];
      OneMapping(l, ms, i, n - 1);
    }
  }

  // ---- The seeded statement ----

  function Final(lines: seq<Line>): Amounts
    requires Evaluated(SEEDED, lines, map[]).Success?
  {
    Evaluated(SEEDED, lines, map[]).value
  }

  lemma SeededEvaluates(lines: seq<Line>)
    ensures Evaluated(SEEDED, lines, map[]).Success?
  {
    PlusMinusPasses(SEEDED, 13, AmountsOf(lines, SEEDED), map[]);
  }

  predicate LeafAt(i: nat, code: string) {
    i < 13 && !Computed(SEEDED[i]) && SEEDED[i].code == code
  }

  lemma {:induction false} LeafIsKept(lines: seq<Line>, i: nat, code: string)
    requires LeafAt(i, code) && Evaluated(SEEDED, lines, map[]).Success?
    ensures Get(Final(lines), code) == MatchSum(lines, SEEDED, code)
  {
    SeededCodesDiffer();
    PassKeeps(SEEDED, 0, 13, AmountsOf(lines, SEEDED), map[], code);
    GetAmount(lines, SEEDED, code);
  }

  lemma TradingLeaves()
    ensures LeafAt(0, "revenue") && LeafAt(1, "cost") && LeafAt(2, "tax_and_surcharge")
  {
  }

  lemma ExpenseLeaves()
    ensures LeafAt(3, "selling_expense") && LeafAt(4, "admin_expense") && LeafAt(5, "finance_expense")
  {
  }

  lemma OtherLeaves()
    ensures LeafAt(6, "investment_income") && LeafAt(8, "non_op_income")
    ensures LeafAt(9, "non_op_expense") && LeafAt(11, "income_tax")
  {
  }

  /** Every leaf of the statement is the plain sum of the amounts that match it. */
  lemma LeavesAreSums(lines: seq<Line>)
    requires Evaluated(SEEDED, lines, map[]).Success?
    ensures forall i: nat, code :: LeafAt(i, code) ==> Get(Final(lines), code) == MatchSum(lines, SEEDED, code)
  {
    forall i: nat, code | LeafAt(i, code) ensures Get(Final(lines), code) == MatchSum(lines, SEEDED, code) {
      LeafIsKept(lines, i, code);
    }
  }

  /** The first operand, then each further one with the sign in front of it. */
  function Terms(tokens: seq<string>, j: nat, a: Amounts): int
    requires 2 * j < |tokens|
  {
    if j == 0 then Get(a, tokens[0])
    else
      Terms(tokens, j - 1, a) + if tokens[2 * j - 1] == "+" then Get(a, tokens[2 * j]) else -Get(a, tokens[2 * j])
  }

  lemma {:induction false} PlusMinusValue(tokens: seq<string>, j: nat, a: Amounts)
    requires PlusMinus(tokens) && 2 * j < |tokens|
    ensures EvalUpTo(tokens, j, a, map[]) == Success(Terms(tokens, j, a))
  {
    if j > 0 {
      PlusMinusValue(tokens, j - 1, a);
      assert (2 * j - 1) % 2 == 1;
    }
  }

  lemma OperatingValue(a: Amounts)
    ensures Eval(OPERATING.formula.value, a, map[])
            == Success(Get(a, "revenue") - Get(a, "cost") - Get(a, "tax_and_surcharge") - Get(a, "selling_expense")
                       - Get(a, "admin_expense") - Get(a, "finance_expense") + Get(a, "investment_income"))
  {
    var tokens := OPERATING.formula.value;
    PlusMinusValue(tokens, 6, a);
    assert Terms(tokens, 1, a) == Get(a, "revenue") - Get(a, "cost");
    assert Terms(tokens, 3, a) == Terms(tokens, 1, a) - Get(a, "tax_and_surcharge") - Get(a, "selling_expense");
    assert Terms(tokens, 5, a) == Terms(tokens, 3, a) - Get(a, "admin_expense") - Get(a, "finance_expense");
  }

  lemma TotalValue(a: Amounts)
    ensures Eval(TOTAL.formula.value, a, map[])
            == Success(Get(a, "operating_profit") + Get(a, "non_op_income") - Get(a, "non_op_expense"))
  {
    PlusMinusValue(TOTAL.formula.value, 2, a);
    assert Terms(TOTAL.formula.value, 1, a) == Get(a, "operating_profit") + Get(a, "non_op_income");
  }

  lemma NetValue(a: Amounts)
    ensures Eval(NET.formula.value, a, map[]) == Success(Get(a, "total_profit") - Get(a, "income_tax"))
  {
    PlusMinusValue(NET.formula.value, 1, a);
  }

  function Count(account: string, prefix: string): int { if HasPrefix(account, prefix) then 1 else 0 }

  function CostCount(account: string): int {
    if HasPrefix(account, "5401") || HasPrefix(account, "5402") then 1 else 0
  }

  /** The sign, or the number of times, with which an account enters net profit. */
  function Weight(account: string): int {
    Count(account, "6") - CostCount(account) - Count(account, "5403") - Count(account, "5601")
    - Count(account, "5602") - Count(account, "5603") + Count(account, "6111") + Count(account, "6301")
    - Count(account, "6711") - Count(account, "6801")
  }

  function Weighted(l: Line): int { Weight(l.account) * l.amount }

  /** Net profit, unfolded to the ten leaf lines. */
  lemma NetProfitUnfolds(lines: seq<Line>)
    requires Evaluated(SEEDED, lines, map[]).Success?
    ensures var f := Final(lines);
            Get(f, "net_profit")
            == Get(f, "revenue") - Get(f, "cost") - Get(f, "tax_and_surcharge") - Get(f, "selling_expense")
               - Get(f, "admin_expense") - Get(f, "finance_expense") + Get(f, "investment_income")
               + Get(f, "non_op_income") - Get(f, "non_op_expense") - Get(f, "income_tax")
  {
    SeededIsWellOrdered();
    var a := AmountsOf(lines, SEEDED);
    PassSolvesEquations(SEEDED, a, map[], 7);
    PassSolvesEquations(SEEDED, a, map[], 10);
    PassSolvesEquations(SEEDED, a, map[], 12);
    OperatingValue(Final(lines));
    TotalValue(Final(lines));
    NetValue(Final(lines));
  }

  lemma LeafMatches(l: Line, m: Mapping, prefix: string)
    requires m.selector == Selector([prefix], "", [])
    ensures Matches(l, m.selector) <==> HasPrefix(l.account, prefix)
  {
    assert m.selector.prefixes[0] == prefix;
  }

  lemma CostMatches(l: Line)
    ensures Matches(l, COST.selector) <==> HasPrefix(l.account, "5401") || HasPrefix(l.account, "5402")
  {
    assert COST.selector.prefixes[0] == "5401" && COST.selector.prefixes[1] == "5402";
  }

  lemma LeafLine(l: Line, i: nat, code: string, prefix: string)
    requires LeafAt(i, code) && SEEDED[i].selector == Selector([prefix], "", [])
    ensures LineSum(l, SEEDED, code) == Count(l.account, prefix) * l.amount
  {
    SeededCodesDiffer();
    OneMapping(l, SEEDED, i, 13);
    assert SEEDED[..13] == SEEDED;
    LeafMatches(l, SEEDED[i], prefix);
  }

  lemma CostLine(l: Line)
    ensures LineSum(l, SEEDED, "cost") == CostCount(l.account) * l.amount
  {
    SeededCodesDiffer();
    OneMapping(l, SEEDED, 1, 13);
    assert SEEDED[..13] == SEEDED;
    CostMatches(l);
  }

  lemma Distribute(a: int, c0: int, c1: int, c2: int, c3: int, c4: int, c5: int, c6: int, c7: int, c8: int, c9: int)
    ensures (c0 - c1 - c2 - c3 - c4 - c5 + c6 + c7 - c8 - c9) * a
            == c0 * a - c1 * a - c2 * a - c3 * a - c4 * a - c5 * a + c6 * a + c7 * a - c8 * a - c9 * a
  {
  }

  /** What a line adds to the ten leaves, with the signs of net profit. */
  function LeafSigned(l: Line): int {
    LineSum(l, SEEDED, "revenue") - LineSum(l, SEEDED, "cost") - LineSum(l, SEEDED, "tax_and_surcharge")
    - LineSum(l, SEEDED, "selling_expense") - LineSum(l, SEEDED, "admin_expense")
    - LineSum(l, SEEDED, "finance_expense") + LineSum(l, SEEDED, "investment_income")
    + LineSum(l, SEEDED, "non_op_income") - LineSum(l, SEEDED, "non_op_expense") - LineSum(l, SEEDED, "income_tax")
  }

  /** Weighted, account by account prefix. */
  function WeightedTerms(t: string, a: int): int {
    Count(t, "6") * a - CostCount(t) * a - Count(t, "5403") * a - Count(t, "5601") * a - Count(t, "5602") * a
    - Count(t, "5603") * a + Count(t, "6111") * a + Count(t, "6301") * a - Count(t, "6711") * a - Count(t, "6801") * a
  }

  lemma TradingLines(l: Line)
    ensures LineSum(l, SEEDED, "revenue") == Count(l.account, "6") * l.amount
    ensures LineSum(l, SEEDED, "tax_and_surcharge") == Count(l.account, "5403") * l.amount
  {
    TradingLeaves();
    LeafLine(l, 0, "revenue", "6");
    LeafLine(l, 2, "tax_and_surcharge", "5403");
  }

  lemma ExpenseLines(l: Line)
    ensures LineSum(l, SEEDED, "selling_expense") == Count(l.account, "5601") * l.amount
    ensures LineSum(l, SEEDED, "admin_expense") == Count(l.account, "5602") * l.amount
    ensures LineSum(l, SEEDED, "finance_expense") == Count(l.account, "5603") * l.amount
  {
    ExpenseLeaves();
    LeafLine(l, 3, "selling_expense", "5601");
    LeafLine(l, 4, "admin_expense", "5602");
    LeafLine(l, 5, "finance_expense", "5603");
  }

  lemma OtherLines(l: Line)
    ensures LineSum(l, SEEDED, "investment_income") == Count(l.account, "6111") * l.amount
    ensures LineSum(l, SEEDED, "non_op_income") == Count(l.account, "6301") * l.amount
    ensures LineSum(l, SEEDED, "non_op_expense") == Count(l.account, "6711") * l.amount
    ensures LineSum(l, SEEDED, "income_tax") == Count(l.account, "6801") * l.amount
  {
    OtherLeaves();
    LeafLine(l, 6, "investment_income", "6111");
    LeafLine(l, 8, "non_op_income", "6301");
    LeafLine(l, 9, "non_op_expense", "6711");
    LeafLine(l, 11, "income_tax", "6801");
  }

  lemma LeavesAreTerms(l: Line)
    ensures LeafSigned(l) == WeightedTerms(l.account, l.amount)
  {
    TradingLines(l);
    CostLine(l);
    ExpenseLines(l);
    OtherLines(l);
  }

  lemma WeightIsTerms(l: Line)
    ensures WeightedTerms(l.account, l.amount) == Weighted(l)
  {
    var t := l.account;
    Distribute(l.amount, Count(t, "6"), CostCount(t), Count(t, "5403"), Count(t, "5601"), Count(t, "5602"),
               Count(t, "5603"), Count(t, "6111"), Count(t, "6301"), Count(t, "6711"), Count(t, "6801"));
  }

  lemma LineWeight(l: Line)
    ensures LeafSigned(l) == Weighted(l)
  {
    LeavesAreTerms(l);
    WeightIsTerms(l);
  }

  /** The ten leaf sums, with the signs of net profit. */
  function SignedSums(lines: seq<Line>): int {
    MatchSum(lines, SEEDED, "revenue") - MatchSum(lines, SEEDED, "cost")
    - MatchSum(lines, SEEDED, "tax_and_surcharge") - MatchSum(lines, SEEDED, "selling_expense")
    - MatchSum(lines, SEEDED, "admin_expense") - MatchSum(lines, SEEDED, "finance_expense")
    + MatchSum(lines, SEEDED, "investment_income") + MatchSum(lines, SEEDED, "non_op_income")
    - MatchSum(lines, SEEDED, "non_op_expense") - MatchSum(lines, SEEDED, "income_tax")
  }

  lemma SignedSumsSnoc(lines: seq<Line>)
    requires lines != []
    ensures SignedSums(lines) == SignedSums(lines[..|lines| - 1]) + LeafSigned(lines[|lines| - 1])
  {
  }

  lemma {:induction false} WeightsAddUp(lines: seq<Line>)
    ensures SignedSums(lines) == Sum(lines, Weighted)
  {
    if lines != [] {
      SignedSumsSnoc(lines);
      WeightsAddUp(lines[..|lines| - 1]);
      LineWeight(lines[|lines| - 1]);
    }
  }

  lemma LeavesAreKept(lines: seq<Line>)
    requires Evaluated(SEEDED, lines, map[]).Success?
    ensures Get(Final(lines), "net_profit") == SignedSums(lines)
  {
    NetProfitUnfolds(lines);
    LeavesAreSums(lines);
    TradingLeaves();
    ExpenseLeaves();
    OtherLeaves();
  }

  /** For every list of lines the seeded net profit is the weighted sum of the line amounts. */
  lemma SeededNetProfit(lines: seq<Line>)
    ensures Evaluated(SEEDED, lines, map[]).Success?
    ensures Get(Final(lines), "net_profit") == Sum(lines, Weighted)
  {
    SeededEvaluates(lines);
    LeavesAreKept(lines);
    WeightsAddUp(lines);
  }

  /**
   The seeded prefixes overlap, because revenue takes every account that starts with 6: income tax and
   non-operating expense cancel out of net profit, and investment and non-operating income count twice.
   */
  lemma SeededOverlaps(account: string)
    ensures HasPrefix(account, "6801") || HasPrefix(account, "6711") ==> Weight(account) == 0
    ensures HasPrefix(account, "6111") || HasPrefix(account, "6301") ==> Weight(account) == 2
    ensures HasPrefix(account, "6001") ==> Weight(account) == 1
    ensures HasPrefix(account, "5401") || HasPrefix(account, "5602") ==> Weight(account) == -1
  {
    if |account| >= 4 {
      assert HasPrefix(account, "6") <==> account[0] == '6';
      assert account[..4] == [account[0], account[1], account[2], account[3]];
    }
  }

  // ---- The fields of a built statement ----

  lemma FieldIsLine(fields: Amounts, evaluated: Amounts, i: nat, code: string)
    requires RB.Names(fields, RB.PROFIT_FIELDS, SEEDED, evaluated) && code in RB.PROFIT_FIELDS
    requires i < 13 && SEEDED[i].code == code
    ensures Get(fields, code) == Get(evaluated, code)
  {
    assert code in Codes(SEEDED);
  }

  lemma NoSurchargeCode()
    ensures "tax_surcharge" !in Codes(SEEDED)
  {
    forall i | 0 <= i < 13 ensures SEEDED[i].code != "tax_surcharge" {
    }
  }

  lemma TradingFields(fields: Amounts, evaluated: Amounts)
    requires RB.Names(fields, RB.PROFIT_FIELDS, SEEDED, evaluated)
    ensures Get(fields, "revenue") == Get(evaluated, "revenue") && Get(fields, "cost") == Get(evaluated, "cost")
    ensures Get(fields, "investment_income") == Get(evaluated, "investment_income")
    ensures Get(fields, "operating_profit") == Get(evaluated, "operating_profit")
  {
    FieldIsLine(fields, evaluated, 0, "revenue");
    FieldIsLine(fields, evaluated, 1, "cost");
    FieldIsLine(fields, evaluated, 6, "investment_income");
    FieldIsLine(fields, evaluated, 7, "operating_profit");
  }

  lemma ExpenseFields(fields: Amounts, evaluated: Amounts)
    requires RB.Names(fields, RB.PROFIT_FIELDS, SEEDED, evaluated)
    ensures Get(fields, "selling_expense") == Get(evaluated, "selling_expense")
    ensures Get(fields, "admin_expense") == Get(evaluated, "admin_expense")
    ensures Get(fields, "finance_expense") == Get(evaluated, "finance_expense")
  {
    FieldIsLine(fields, evaluated, 3, "selling_expense");
    FieldIsLine(fields, evaluated, 4, "admin_expense");
    FieldIsLine(fields, evaluated, 5, "finance_expense");
  }

  lemma OperatingUnfolds(lines: seq<Line>)
    requires Evaluated(SEEDED, lines, map[]).Success?
    ensures var f := Final(lines);
            Get(f, "operating_profit")
            == Get(f, "revenue") - Get(f, "cost") - MatchSum(lines, SEEDED, "tax_and_surcharge")
               - Get(f, "selling_expense") - Get(f, "admin_expense") - Get(f, "finance_expense")
               + Get(f, "investment_income")
  {
    SeededIsWellOrdered();
    PassSolvesEquations(SEEDED, AmountsOf(lines, SEEDED), map[], 7);
    OperatingValue(Final(lines));
    TradingLeaves();
    LeafIsKept(lines, 2, "tax_and_surcharge");
  }

  /**
   In every statement built from the seeded mappings the field for taxes and surcharges stays zero, the line
   being named otherwise, and the shown fields miss operating profit by exactly the amounts of that line.
   */
  lemma {:induction false} SurchargeFieldStaysZero(lines: seq<Line>, fields: Amounts)
    requires Evaluated(SEEDED, lines, map[]).Success?
    requires RB.Names(fields, RB.PROFIT_FIELDS, SEEDED, Final(lines))
    ensures "tax_surcharge" in RB.PROFIT_FIELDS && "tax_surcharge" !in fields && "tax_and_surcharge" !in fields
    ensures Get(fields, "operating_profit")
            == Get(fields, "revenue") - Get(fields, "cost") - Get(fields, "selling_expense")
               - Get(fields, "admin_expense") - Get(fields, "finance_expense") + Get(fields, "investment_income")
               - MatchSum(lines, SEEDED, "tax_and_surcharge")
  {
    NoSurchargeCode();
    OperatingUnfolds(lines);
    TradingFields(fields, Final(lines));
    ExpenseFields(fields, Final(lines));
  }
}
