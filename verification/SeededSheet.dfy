/** What the balance sheet mappings seeded in the database add up to, and which of them the sheet shows. */
module SeededSheet {
  import opened Prelude
  import opened Report
  import opened SeededProfit
  import opened Sheet
  import RB = ReportBuilder

  const CURRENT_CODES := ["monetary_funds", "accounts_receivable", "prepayments", "other_receivables", "inventory"]
  const FIXED_CODES := ["fixed_assets", "intangible_assets"]
  const ASSET_CODES := ["current_assets", "non_current_assets"]
  const DEBT_CODES := ["short_term_borrow", "accounts_payable", "advance_receipts", "payroll_payable", "taxes_payable"]
  const LONG_CODES := ["long_term_borrow"]
  const LIABILITY_CODES := ["current_liabilities", "non_current_liab"]
  const EQUITY_CODES := ["paid_in_capital", "capital_reserve", "surplus_reserve", "retained_earnings"]
  const CLAIM_CODES := ["total_liabilities", "total_equity"]

  const SHEET: seq<Mapping> := [
    Leaf("monetary_funds", 1, ["1001", "1002"]),
    Leaf("accounts_receivable", 2, ["1122", "1131", "1132"]),
    Leaf("prepayments", 3, ["1123"]),
    Leaf("other_receivables", 4, ["1221"]),
    Leaf("inventory", 5, ["1403", "1405", "1411"]),
    Subtotal("current_assets", 6, Plus(CURRENT_CODES)),
    Leaf("fixed_assets", 7, ["1601"]),
    Leaf("intangible_assets", 8, ["1701"]),
    Subtotal("non_current_assets", 9, Plus(FIXED_CODES)),
    Subtotal("total_assets", 10, Plus(ASSET_CODES)),
    Leaf("short_term_borrow", 11, ["2001"]),
    Leaf("accounts_payable", 12, ["2202"]),
    Leaf("advance_receipts", 13, ["2203"]),
    Leaf("payroll_payable", 14, ["2211"]),
    Leaf("taxes_payable", 15, ["2221"]),
    Subtotal("current_liabilities", 16, Plus(DEBT_CODES)),
    Leaf("long_term_borrow", 17, ["2501"]),
    Subtotal("non_current_liab", 18, Plus(LONG_CODES)),
    Subtotal("total_liabilities", 19, Plus(LIABILITY_CODES)),
    Leaf("paid_in_capital", 20, ["4001"]),
    Leaf("capital_reserve", 21, ["4002"]),
    Leaf("surplus_reserve", 22, ["4101"]),
    Leaf("retained_earnings", 23, ["4104"]),
    Subtotal("total_equity", 24, Plus(EQUITY_CODES)),
    Subtotal("total_liab_equity", 25, Plus(CLAIM_CODES)) ]

  lemma FirstCodesDiffer()
    ensures forall i, j :: 0 <= i < j < 25 && i < 4 ==> SHEET[i].code != SHEET[j].code
  {
  }

  lemma EarlyCodesDiffer()
    ensures forall i, j :: 4 <= i < j < 25 && i < 7 ==> SHEET[i].code != SHEET[j].code
  {
  }

  lemma MiddleCodesDiffer()
    ensures forall i, j :: 7 <= i < j < 25 && i < 14 ==> SHEET[i].code != SHEET[j].code
  {
  }

  lemma LateCodesDiffer()
    ensures forall i, j :: 14 <= i < j < 25 ==> SHEET[i].code != SHEET[j].code
  {
  }

  lemma SheetCodesDiffer()
    ensures CodesDiffer(SHEET)
  {
    FirstCodesDiffer();
    EarlyCodesDiffer();
    MiddleCodesDiffer();
    LateCodesDiffer();
  }

  // ---- The eight subtotals ----

  lemma CurrentAssets()
    ensures Totals(SHEET, 5, [0, 1, 2, 3, 4], CURRENT_CODES)
  {
  }

  lemma FixedAssets()
    ensures Totals(SHEET, 8, [6, 7], FIXED_CODES)
  {
  }

  lemma AllAssets()
    ensures Totals(SHEET, 9, [5, 8], ASSET_CODES)
  {
  }

  lemma CurrentDebts()
    ensures Totals(SHEET, 15, [10, 11, 12, 13, 14], DEBT_CODES)
  {
  }

  lemma LongDebts()
    ensures Totals(SHEET, 17, [16], LONG_CODES)
  {
  }

  lemma AllLiabilities()
    ensures Totals(SHEET, 18, [15, 17], LIABILITY_CODES)
  {
  }

  lemma AllEquity()
    ensures Totals(SHEET, 23, [19, 20, 21, 22], EQUITY_CODES)
  {
  }

  lemma AllClaims()
    ensures Totals(SHEET, 24, [18, 23], CLAIM_CODES)
  {
  }

  lemma ComputedAt(i: nat)
    requires i < 25 && Computed(SHEET[i])
    ensures i == 5 || i == 8 || i == 9 || i == 15 || i == 17 || i == 18 || i == 23 || i == 24
  {
  }

  lemma AssetTotals()
    ensures HasTotals(SHEET, 5) && HasTotals(SHEET, 8) && HasTotals(SHEET, 9)
  {
    CurrentAssets();
    FixedAssets();
    AllAssets();
  }

  lemma DebtTotals()
    ensures HasTotals(SHEET, 15) && HasTotals(SHEET, 17) && HasTotals(SHEET, 18)
  {
    CurrentDebts();
    LongDebts();
    AllLiabilities();
  }

  lemma ClaimTotals()
    ensures HasTotals(SHEET, 23) && HasTotals(SHEET, 24)
  {
    AllEquity();
    AllClaims();
  }

  lemma SheetIsAdditive()
    ensures Additive(SHEET)
  {
    SheetCodesDiffer();
    AssetTotals();
    DebtTotals();
    ClaimTotals();
    forall i: nat | i < 25 && Computed(SHEET[i]) ensures HasTotals(SHEET, i) {
      ComputedAt(i);
    }
  }

  // ---- The leaves ----

  const ASSETS: seq<nat> := [0, 1, 2, 3, 4] + [6, 7]
  const CLAIMS: seq<nat> := [10, 11, 12, 13, 14] + [16] + [19, 20, 21, 22]

  predicate Leaf4(i: nat) { i < 25 && ByPrefix(SHEET[i]) && FourLong(SHEET[i]) }

  lemma LeavesAreFourLong(i: nat)
    requires i < 25
    ensures i !in { 5, 8, 9, 15, 17, 18, 23, 24 } ==> Leaf4(i)
  {
  }

  lemma CashIsApart(j: nat)
    requires 0 < j < 15
    ensures Apart(SHEET[0], SHEET[j])
  {
  }

  lemma CashIsApartFromClaims(j: nat)
    requires 15 <= j < 25
    ensures Apart(SHEET[0], SHEET[j])
  {
  }

  lemma ReceivablesAreApart(j: nat)
    requires 1 < j < 25
    ensures Apart(SHEET[1], SHEET[j])
  {
  }

  lemma PrepaymentsAreApart(j: nat)
    requires 2 < j < 25
    ensures Apart(SHEET[2], SHEET[j])
  {
  }

  lemma OtherReceivablesAreApart(j: nat)
    requires 3 < j < 25
    ensures Apart(SHEET[3], SHEET[j])
  {
  }

  lemma InventoryIsApart(j: nat)
    requires 4 < j < 15
    ensures Apart(SHEET[4], SHEET[j])
  {
  }

  lemma InventoryIsApartFromClaims(j: nat)
    requires 15 <= j < 25
    ensures Apart(SHEET[4], SHEET[j])
  {
  }

  lemma OthersAreApart(i: nat, j: nat)
    requires 5 <= i < j < 25
    ensures Apart(SHEET[i], SHEET[j])
  {
  }

  /** No two mappings of the sheet share a prefix. */
  lemma AllApart(i: nat, j: nat)
    requires i < j < 25
    ensures Apart(SHEET[i], SHEET[j])
  {
    if i == 0 && j < 15 {
      CashIsApart(j);
    } else if i == 0 {
      CashIsApartFromClaims(j);
    } else if i == 1 {
      ReceivablesAreApart(j);
    } else if i == 2 {
      PrepaymentsAreApart(j);
    } else if i == 3 {
      OtherReceivablesAreApart(j);
    } else if i == 4 && j < 15 {
      InventoryIsApart(j);
    } else if i == 4 {
      InventoryIsApartFromClaims(j);
    } else {
      OthersAreApart(i, j);
    }
  }

  lemma IncreasingIsDisjoint(at: seq<nat>)
    requires forall m, n :: 0 <= m < n < |at| ==> at[m] < at[n]
    requires forall n :: 0 <= n < |at| ==> Leaf4(at[n])
    ensures Disjoint(SHEET, at)
  {
    forall m, n | 0 <= m < n < |at| ensures Apart(SHEET[at[m]], SHEET[at[n]]) {
      AllApart(at[m], at[n]);
    }
  }

  lemma LeavesAreDisjoint()
    ensures Disjoint(SHEET, ASSETS) && Disjoint(SHEET, CLAIMS)
  {
    forall i: nat | i < 25 && i !in { 5, 8, 9, 15, 17, 18, 23, 24 } ensures Leaf4(i) {
      LeavesAreFourLong(i);
    }
    IncreasingIsDisjoint(ASSETS);
    IncreasingIsDisjoint(CLAIMS);
  }

  // ---- The two totals ----

  lemma SheetEvaluates(lines: seq<Line>)
    ensures Evaluated(SHEET, lines, map[]).Success?
  {
    SheetIsAdditive();
    AdditiveEvaluates(SHEET, lines);
  }

  lemma SheetAssets(lines: seq<Line>)
    requires Additive(SHEET) && Evaluated(SHEET, lines, map[]).Success?
    ensures Covers(SHEET, lines, 9, [0, 1, 2, 3, 4] + [6, 7])
  {
    AllAssets();
    CurrentAssets();
    FixedAssets();
    TotalCovers(SHEET, lines, 5, [0, 1, 2, 3, 4], CURRENT_CODES);
    TotalCovers(SHEET, lines, 8, [6, 7], FIXED_CODES);
    TwoCover(SHEET, lines, 9, 5, 8, ASSET_CODES, [0, 1, 2, 3, 4], [6, 7]);
  }

  lemma SheetLiabilities(lines: seq<Line>)
    requires Additive(SHEET) && Evaluated(SHEET, lines, map[]).Success?
    ensures Covers(SHEET, lines, 18, [10, 11, 12, 13, 14] + [16])
  {
    AllLiabilities();
    CurrentDebts();
    LongDebts();
    TotalCovers(SHEET, lines, 15, [10, 11, 12, 13, 14], DEBT_CODES);
    TotalCovers(SHEET, lines, 17, [16], LONG_CODES);
    TwoCover(SHEET, lines, 18, 15, 17, LIABILITY_CODES, [10, 11, 12, 13, 14], [16]);
  }

  lemma SheetClaims(lines: seq<Line>)
    requires Additive(SHEET) && Evaluated(SHEET, lines, map[]).Success?
    ensures Covers(SHEET, lines, 24, [10, 11, 12, 13, 14] + [16] + [19, 20, 21, 22])
  {
    AllClaims();
    AllEquity();
    SheetLiabilities(lines);
    TotalCovers(SHEET, lines, 23, [19, 20, 21, 22], EQUITY_CODES);
    TwoCover(SHEET, lines, 24, 18, 23, CLAIM_CODES, [10, 11, 12, 13, 14] + [16], [19, 20, 21, 22]);
  }

  const ASSET_PREFIXES := [["1001", "1002"], ["1122", "1131", "1132"], ["1123"], ["1221"], ["1403", "1405", "1411"],
                           ["1601"], ["1701"]]
  const CLAIM_PREFIXES := [["2001"], ["2202"], ["2203"], ["2211"], ["2221"], ["2501"],
                           ["4001"], ["4002"], ["4101"], ["4104"]]

  predicate CurrentLeaves(ms: seq<Mapping>) {
    |ms| == 25
    && ms[0].selector.prefixes == ["1001", "1002"]
    && ms[1].selector.prefixes == ["1122", "1131", "1132"]
    && ms[2].selector.prefixes == ["1123"]
    && ms[3].selector.prefixes == ["1221"]
    && ms[4].selector.prefixes == ["1403", "1405", "1411"]
  }

  predicate FixedLeaves(ms: seq<Mapping>) {
    |ms| == 25
    && ms[6].selector.prefixes == ["1601"]
    && ms[7].selector.prefixes == ["1701"]
  }

  predicate DebtLeaves(ms: seq<Mapping>) {
    |ms| == 25
    && ms[10].selector.prefixes == ["2001"]
    && ms[11].selector.prefixes == ["2202"]
    && ms[12].selector.prefixes == ["2203"]
    && ms[13].selector.prefixes == ["2211"]
    && ms[14].selector.prefixes == ["2221"]
    && ms[16].selector.prefixes == ["2501"]
  }

  predicate EquityLeaves(ms: seq<Mapping>) {
    |ms| == 25
    && ms[19].selector.prefixes == ["4001"]
    && ms[20].selector.prefixes == ["4002"]
    && ms[21].selector.prefixes == ["4101"]
    && ms[22].selector.prefixes == ["4104"]
  }

  lemma CurrentPrefixes()
    ensures CurrentLeaves(SHEET)
  {
  }

  lemma FixedPrefixes()
    ensures FixedLeaves(SHEET)
  {
  }

  lemma DebtPrefixes()
    ensures DebtLeaves(SHEET)
  {
  }

  lemma EquityPrefixes()
    ensures EquityLeaves(SHEET)
  {
  }

  lemma PrefixGroups(ms: seq<Mapping>)
    requires CurrentLeaves(ms) && FixedLeaves(ms) && DebtLeaves(ms) && EquityLeaves(ms)
    ensures PrefixesAre(ms, ASSETS, ASSET_PREFIXES) && PrefixesAre(ms, CLAIMS, CLAIM_PREFIXES)
  {
  }

  lemma SheetPrefixes()
    ensures PrefixesAre(SHEET, ASSETS, ASSET_PREFIXES) && PrefixesAre(SHEET, CLAIMS, CLAIM_PREFIXES)
  {
    CurrentPrefixes();
    FixedPrefixes();
    DebtPrefixes();
    EquityPrefixes();
    PrefixGroups(SHEET);
  }

  lemma TotalCodes()
    ensures SHEET[9].code == "total_assets" && SHEET[18].code == "total_liabilities"
    ensures SHEET[24].code == "total_liab_equity"
  {
  }

  /**
   For every list of lines, total assets add up every amount booked on an asset account, and total liabilities
   and equity every amount booked on theirs: debits and credits alike, since no mapping looks at the side.
   */
  lemma {:induction false} SheetTotals(lines: seq<Line>)
    ensures Evaluated(SHEET, lines, map[]).Success?
    ensures var amounts := Evaluated(SHEET, lines, map[]).value;
            && Get(amounts, "total_assets") == PrefixSum(lines, ASSET_PREFIXES)
            && Get(amounts, "total_liab_equity") == PrefixSum(lines, CLAIM_PREFIXES)
  {
    SheetIsAdditive();
    SheetEvaluates(lines);
    LeavesAreDisjoint();
    SheetAssets(lines);
    SheetClaims(lines);
    CoverAddsUp(SHEET, lines, 9, ASSETS);
    CoverAddsUp(SHEET, lines, 24, CLAIMS);
    SheetPrefixes();
    SelectedIsPrefixSum(SHEET, ASSETS, ASSET_PREFIXES, lines);
    SelectedIsPrefixSum(SHEET, CLAIMS, CLAIM_PREFIXES, lines);
    TotalCodes();
  }

  // ---- What the sheet shows ----

  predicate Shown(i: nat, section: string)
    requires i < 25
  {
    RB.SectionOf(SHEET[i].code) == section
  }

  lemma UnplacedAssets()
    ensures RB.SectionOf("monetary_funds") == "" && RB.SectionOf("accounts_receivable") == ""
    ensures RB.SectionOf("current_assets") == "" && RB.SectionOf("fixed_assets") == ""
    ensures RB.SectionOf("intangible_assets") == "" && RB.SectionOf("non_current_assets") == ""
  {
  }

  lemma UnplacedDebts()
    ensures RB.SectionOf("short_term_borrow") == "" && RB.SectionOf("accounts_payable") == ""
    ensures RB.SectionOf("payroll_payable") == "" && RB.SectionOf("taxes_payable") == ""
    ensures RB.SectionOf("current_liabilities") == "" && RB.SectionOf("long_term_borrow") == ""
    ensures RB.SectionOf("non_current_liab") == ""
  {
  }

  lemma CurrentAssetsShown(i: nat)
    requires i < 5
    ensures Shown(i, if i < 2 then "" else RB.ASSETS)
  {
    UnplacedAssets();
  }

  lemma AssetTotalsShown(i: nat)
    requires 5 <= i < 10
    ensures Shown(i, if i == 9 then RB.ASSETS else "")
  {
    UnplacedAssets();
  }

  lemma DebtsShown(i: nat)
    requires 10 <= i < 19
    ensures Shown(i, if i in { 12, 18 } then RB.LIABILITIES else "")
  {
    UnplacedDebts();
  }

  lemma EquityShown(i: nat)
    requires 19 <= i < 25
    ensures Shown(i, RB.EQUITY)
  {
  }

  lemma SectionOfEach(i: nat)
    requires i < 25
    ensures Shown(i, RB.ASSETS) <==> i in { 2, 3, 4, 9 }
    ensures Shown(i, RB.LIABILITIES) <==> i in { 12, 18 }
    ensures Shown(i, RB.EQUITY) <==> i >= 19
  {
    if i < 5 {
      CurrentAssetsShown(i);
    } else if i < 10 {
      AssetTotalsShown(i);
    } else if i < 19 {
      DebtsShown(i);
    } else {
      EquityShown(i);
    }
  }

  const SHOWN_ASSETS: seq<nat> := [2, 3, 4, 9]
  const SHOWN_DEBTS: seq<nat> := [12, 18]
  const SHOWN_EQUITY: seq<nat> := [19, 20, 21, 22, 23, 24]

  lemma ShownPositions(i: nat)
    requires i < 25
    ensures i in SHOWN_ASSETS <==> i in { 2, 3, 4, 9 }
    ensures i in SHOWN_DEBTS <==> i in { 12, 18 }
    ensures i in SHOWN_EQUITY <==> i >= 19
  {
    assert SHOWN_EQUITY[0] == 19 && SHOWN_EQUITY[1] == 20 && SHOWN_EQUITY[2] == 21;
    assert SHOWN_EQUITY[3] == 22 && SHOWN_EQUITY[4] == 23 && SHOWN_EQUITY[5] == 24;
  }

  lemma SectionsOfPositions(i: nat)
    requires i < 25
    ensures Shown(i, RB.ASSETS) <==> i in SHOWN_ASSETS
    ensures Shown(i, RB.LIABILITIES) <==> i in SHOWN_DEBTS
    ensures Shown(i, RB.EQUITY) <==> i in SHOWN_EQUITY
  {
    SectionOfEach(i);
    ShownPositions(i);
  }

  lemma SectionsAt()
    ensures RB.SectionAt(SHEET, 25, RB.ASSETS, SHOWN_ASSETS)
    ensures RB.SectionAt(SHEET, 25, RB.LIABILITIES, SHOWN_DEBTS)
    ensures RB.SectionAt(SHEET, 25, RB.EQUITY, SHOWN_EQUITY)
  {
    forall i: nat | i < 25
      ensures Shown(i, RB.ASSETS) <==> i in SHOWN_ASSETS
      ensures Shown(i, RB.LIABILITIES) <==> i in SHOWN_DEBTS
      ensures Shown(i, RB.EQUITY) <==> i in SHOWN_EQUITY
    {
      SectionsOfPositions(i);
    }
  }

  /** Whatever the amounts, the sheet shows these twelve of the 25 seeded lines; the others are in no section. */
  lemma SheetShows(evaluated: Amounts)
    ensures RB.SectionLines(SHEET, evaluated, RB.ASSETS) == RB.LinesAt(SHEET, evaluated, SHOWN_ASSETS)
    ensures RB.SectionLines(SHEET, evaluated, RB.LIABILITIES) == RB.LinesAt(SHEET, evaluated, SHOWN_DEBTS)
    ensures RB.SectionLines(SHEET, evaluated, RB.EQUITY) == RB.LinesAt(SHEET, evaluated, SHOWN_EQUITY)
  {
    SectionsAt();
    RB.SectionLinesAt(SHEET, 25, evaluated, RB.ASSETS, SHOWN_ASSETS);
    RB.SectionLinesAt(SHEET, 25, evaluated, RB.LIABILITIES, SHOWN_DEBTS);
    RB.SectionLinesAt(SHEET, 25, evaluated, RB.EQUITY, SHOWN_EQUITY);
    assert SHEET[..25] == SHEET;
  }

  const HIDDEN_ASSETS: seq<nat> := [0, 1] + [6, 7]
  const HIDDEN_DEBTS: seq<nat> := [10, 11] + [13, 14, 16]

  lemma HiddenAreDisjoint()
    ensures Disjoint(SHEET, HIDDEN_ASSETS) && Disjoint(SHEET, HIDDEN_DEBTS)
  {
    forall i: nat | i < 25 && i !in { 5, 8, 9, 15, 17, 18, 23, 24 } ensures Leaf4(i) {
      LeavesAreFourLong(i);
    }
    IncreasingIsDisjoint(HIDDEN_ASSETS);
    IncreasingIsDisjoint(HIDDEN_DEBTS);
  }

  lemma ShownAndHidden()
    ensures [0, 1] + [2, 3, 4] + [6, 7] == [0, 1, 2, 3, 4] + [6, 7]
    ensures [10, 11] + [12] + [13, 14, 16] == [10, 11, 12, 13, 14] + [16]
  {
  }

  lemma HiddenAssets(ms: seq<Mapping>, lines: seq<Line>)
    requires |ms| == 25 && Additive(ms) && Evaluated(ms, lines, map[]).Success?
    requires Covers(ms, lines, 9, [0, 1, 2, 3, 4] + [6, 7]) && Disjoint(ms, HIDDEN_ASSETS)
    ensures Within(ms, [2, 3, 4])
    ensures Stated(ms, lines, 9) == StatedSum(ms, lines, [2, 3, 4]) + SelectedSum(ms, HIDDEN_ASSETS, lines)
  {
    ShownAndHidden();
    CoverShows(ms, lines, 9, [0, 1], [2, 3, 4], [6, 7]);
  }

  lemma HiddenDebts(ms: seq<Mapping>, lines: seq<Line>)
    requires |ms| == 25 && Additive(ms) && Evaluated(ms, lines, map[]).Success?
    requires Covers(ms, lines, 18, [10, 11, 12, 13, 14] + [16]) && Disjoint(ms, HIDDEN_DEBTS)
    ensures Within(ms, [12])
    ensures Stated(ms, lines, 18) == StatedSum(ms, lines, [12]) + SelectedSum(ms, HIDDEN_DEBTS, lines)
  {
    ShownAndHidden();
    CoverShows(ms, lines, 18, [10, 11], [12], [13, 14, 16]);
  }

  /**
   So the lines shown under a total do not add up to it: for every list of lines, total assets exceed the shown
   asset lines by the amounts on cash, receivable, fixed and intangible asset accounts, and total liabilities
   exceed the shown one by those on loan, payable, payroll and tax accounts.
   */
  lemma ShownLinesFallShort(lines: seq<Line>)
    ensures Evaluated(SHEET, lines, map[]).Success?
    ensures Within(SHEET, [2, 3, 4]) && Within(SHEET, [12])
    ensures Within(SHEET, HIDDEN_ASSETS) && Within(SHEET, HIDDEN_DEBTS)
    ensures Stated(SHEET, lines, 9) == StatedSum(SHEET, lines, [2, 3, 4]) + SelectedSum(SHEET, HIDDEN_ASSETS, lines)
    ensures Stated(SHEET, lines, 18) == StatedSum(SHEET, lines, [12]) + SelectedSum(SHEET, HIDDEN_DEBTS, lines)
  {
    SheetIsAdditive();
    SheetEvaluates(lines);
    HiddenAreDisjoint();
    SheetAssets(lines);
    SheetLiabilities(lines);
    HiddenAssets(SHEET, lines);
    HiddenDebts(SHEET, lines);
  }
}
