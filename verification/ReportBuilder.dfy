/** The report builder object and its two statements. */
module ReportBuilder {
  import opened Prelude
  import opened Grouping
  import opened Report

  predicate OrderLe(a: Mapping, b: Mapping) { a.order <= b.order }

  datatype StatementLine = StatementLine(code: string, amount: int, isSubtotal: bool)

  /** Each mapping has one line, in display order, with its evaluated amount. */
  predicate StatesAll(rows: seq<StatementLine>, ms: seq<Mapping>, evaluated: Amounts) {
    && |rows| == |ms|
    && forall i :: 0 <= i < |ms| ==> rows[i] == StatementLine(ms[i].code, Get(evaluated, ms[i].code), ms[i].isSubtotal)
  }

  /** The named amounts are those of the wanted codes that some mapping has. */
  ghost predicate Names(named: Amounts, wanted: set<string>, ms: seq<Mapping>, evaluated: Amounts) {
    && (forall code :: code in named <==> code in wanted && code in Codes(ms))
    && (forall code :: code in named ==> named[code] == Get(evaluated, code))
  }

  const PROFIT_FIELDS := { "revenue", "cost", "tax_surcharge", "selling_expense", "admin_expense", "finance_expense",
                           "asset_impairment", "fair_value_gain", "investment_income", "operating_profit",
                           "non_op_income", "non_op_expense", "total_profit", "income_tax", "net_profit" }

  /** fields holds the named amounts; a name no mapping has stays zero. */
  datatype ProfitStatement = ProfitStatement(lines: seq<StatementLine>, fields: Amounts)

  const ASSETS := "assets"
  const LIABILITIES := "liabilities"
  const EQUITY := "equity"

  const SECTIONS: map<string, string> := map[
    "cash" := ASSETS, "receivables" := ASSETS, "prepayments" := ASSETS, "other_receivables" := ASSETS,
    "inventory" := ASSETS, "fixed_assets_net" := ASSETS, "intangibles_net" := ASSETS, "total_assets" := ASSETS,
    "short_term_loans" := LIABILITIES, "payables" := LIABILITIES, "advance_receipts" := LIABILITIES,
    "employee_payable" := LIABILITIES, "tax_payable" := LIABILITIES, "other_payables" := LIABILITIES,
    "total_liabilities" := LIABILITIES,
    "paid_in_capital" := EQUITY, "capital_reserve" := EQUITY, "surplus_reserve" := EQUITY,
    "retained_earnings" := EQUITY, "total_equity" := EQUITY, "total_liab_equity" := EQUITY ]

  function SectionOf(code: string): string { if code in SECTIONS then SECTIONS[code] else "" }

  /** The codes that a sheet shows as assets. */
  lemma AssetCodes(code: string)
    ensures SectionOf(code) == "assets"
            <==> code in { "cash", "receivables", "prepayments", "other_receivables", "inventory", "fixed_assets_net",
                           "intangibles_net", "total_assets" }
  {
  }

  /** The codes that it shows as liabilities. */
  lemma LiabilityCodes(code: string)
    ensures SectionOf(code) == "liabilities"
            <==> code in { "short_term_loans", "payables", "advance_receipts", "employee_payable", "tax_payable",
                           "other_payables", "total_liabilities" }
  {
  }

  /** The codes that it shows as equity. */
  lemma EquityCodes(code: string)
    ensures SectionOf(code) == "equity"
            <==> code in { "paid_in_capital", "capital_reserve", "surplus_reserve", "retained_earnings",
                           "total_equity", "total_liab_equity" }
  {
  }

  /** The lines of one section, in display order. */
  function SectionLines(ms: seq<Mapping>, evaluated: Amounts, section: string): seq<StatementLine> {
    if ms == [] then []
    else
      var m := ms[|ms| - 1];
      SectionLines(ms[..|ms| - 1], evaluated, section)
      + if SectionOf(m.code) == section then [StatementLine(m.code, Get(evaluated, m.code), m.isSubtotal)] else []
  }

  function LineOf(m: Mapping, evaluated: Amounts): StatementLine {
    StatementLine(m.code, Get(evaluated, m.code), m.isSubtotal)
  }

  /** The lines of the mappings at these positions. */
  function LinesAt(ms: seq<Mapping>, evaluated: Amounts, at: seq<nat>): seq<StatementLine>
    requires forall n :: 0 <= n < |at| ==> at[n] < |ms|
  {
    if at == [] then []
    else LinesAt(ms, evaluated, at[..|at| - 1]) + [LineOf(ms[at[|at| - 1]], evaluated)]
  }

  predicate Rising(at: seq<nat>) { forall m, n :: 0 <= m < n < |at| ==> at[m] < at[n] }

  /** Of the first n mappings, those at these positions belong to the section. */
  predicate SectionAt(ms: seq<Mapping>, n: nat, section: string, at: seq<nat>) {
    && n <= |ms| && Rising(at)
    && (forall j :: 0 <= j < |at| ==> at[j] < n)
    && (forall i :: 0 <= i < n ==> (SectionOf(ms[i].code) == section <==> i in at))
  }

  lemma LastPosition(at: seq<nat>, n: nat)
    requires Rising(at) && n in at && forall j :: 0 <= j < |at| ==> at[j] <= n
    ensures var last := |at| - 1;
            && at[last] == n && Rising(at[..last])
            && (forall j :: 0 <= j < last ==> at[j] < n)
            && (forall i: nat :: i in at[..last] <==> i in at && i != n)
  {
    var last := |at| - 1;
    assert at == at[..last] + [at[last]];
  }

  lemma ShorterSection(ms: seq<Mapping>, n: nat, section: string, at: seq<nat>)
    requires SectionAt(ms, n, section, at) && n > 0
    ensures if SectionOf(ms[n - 1].code) == section
            then at != [] && at[|at| - 1] == n - 1 && SectionAt(ms, n - 1, section, at[..|at| - 1])
            else SectionAt(ms, n - 1, section, at)
  {
    if SectionOf(ms[n - 1].code) == section {
      LastPosition(at, n - 1);
    } else {
      forall j | 0 <= j < |at| ensures at[j] != n - 1 {
        assert at[j] in at;
      }
    }
  }

  lemma {:induction false} SectionLinesAt(ms: seq<Mapping>, n: nat, evaluated: Amounts, section: string, at: seq<nat>)
    requires SectionAt(ms, n, section, at)
    ensures SectionLines(ms[..n], evaluated, section) == LinesAt(ms, evaluated, at)
  {
    if n > 0 {
      assert ms[..n][..n - 1] == ms[..n - 1];
      ShorterSection(ms, n, section, at);
      SectionLinesAt(ms, n - 1, evaluated, section,
                     if SectionOf(ms[n - 1].code) == section then at[..|at| - 1] else at);
    }
  }

  const TOTALS := { "total_assets", "total_liabilities", "total_equity", "total_liab_equity" }

  /** totals holds the four named totals; one that no mapping has stays zero. */
  datatype BalanceSheet = BalanceSheet(assets: seq<StatementLine>, liabilities: seq<StatementLine>,
                                       equity: seq<StatementLine>, totals: Amounts)

  /** The fields of a profit statement and the totals of a balance sheet, by name. */
  lemma NamesAre(code: string)
    ensures code in PROFIT_FIELDS
            <==> code in [ "revenue", "cost", "tax_surcharge", "selling_expense", "admin_expense", "finance_expense",
                           "asset_impairment", "fair_value_gain", "investment_income", "operating_profit",
                           "non_op_income", "non_op_expense", "total_profit", "income_tax", "net_profit" ]
    ensures code in TOTALS
            <==> code in [ "total_assets", "total_liabilities", "total_equity", "total_liab_equity" ]
  {
  }

  class ReportBuilder {
    const mappings: seq<Mapping>

    constructor (mappings: seq<Mapping>)
      ensures this.mappings == mappings
    {
      this.mappings := mappings;
    }

    /** No builder without mappings; otherwise the caller's list is put in display order and kept. */
    static method NewReportBuilder(mappings: array<Mapping>) returns (rb: ReportBuilder?)
      modifies mappings
      ensures rb == null <==> mappings.Length == 0
      ensures multiset(mappings[..]) == multiset(old(mappings[..]))
      ensures rb != null ==>
                && rb.mappings == mappings[..]
                && forall i, j :: 0 <= i < j < |rb.mappings| ==> rb.mappings[i].order <= rb.mappings[j].order
    {
      if mappings.Length == 0 {
        return null;
      }
      SortInPlace(mappings, OrderLe);
      rb := new ReportBuilder(mappings[..]);
      assert forall i, j :: 0 <= i < j < |rb.mappings| ==> OrderLe(rb.mappings[i], rb.mappings[j]);
    }

    method Evaluate(lines: seq<Line>, literals: Amounts) returns (r: Result<Amounts, ReportError>)
      ensures r == Evaluated(mappings, lines, literals)
    {
      var amounts := Accumulate(lines, mappings);
      r := SubtotalPass(mappings, amounts, literals);
    }

    method BuildProfitStatement(lines: seq<Line>, literals: Amounts) returns (r: Result<ProfitStatement, ReportError>)
      ensures r.Success? <==> Evaluated(mappings, lines, literals).Success?
      ensures r.Failure? ==> Evaluated(mappings, lines, literals) == Failure(r.error)
      ensures r.Success? ==>
                var evaluated := Evaluated(mappings, lines, literals).value;
                && StatesAll(r.value.lines, mappings, evaluated)
                && Names(r.value.fields, PROFIT_FIELDS, mappings, evaluated)
    {
      var result := Evaluate(lines, literals);
      if result.Failure? {
        return Failure(result.error);
      }
      var evaluated := result.value;
      var rows: seq<StatementLine> := [];
      var fields: Amounts := map[];
      for n := 0 to |mappings|
        invariant StatesAll(rows, mappings[..n], evaluated)
        invariant Names(fields, PROFIT_FIELDS, mappings[..n], evaluated)
      {
        var m := mappings[n];
        var amt := Get(evaluated, m.code);
        CodesSnoc(mappings, n);
        rows := rows + [StatementLine(m.code, amt, m.isSubtotal)];
        if m.code in PROFIT_FIELDS {
          fields := fields[m.code := amt];
        }
      }
      assert mappings[..|mappings|] == mappings;
      return Success(ProfitStatement(rows, fields));
    }

    method BuildBalanceSheet(lines: seq<Line>, literals: Amounts) returns (r: Result<BalanceSheet, ReportError>)
      ensures r.Success? <==> Evaluated(mappings, lines, literals).Success?
      ensures r.Failure? ==> Evaluated(mappings, lines, literals) == Failure(r.error)
      ensures r.Success? ==>
                var evaluated := Evaluated(mappings, lines, literals).value;
                && r.value.assets == SectionLines(mappings, evaluated, ASSETS)
                && r.value.liabilities == SectionLines(mappings, evaluated, LIABILITIES)
                && r.value.equity == SectionLines(mappings, evaluated, EQUITY)
                && Names(r.value.totals, TOTALS, mappings, evaluated)
    {
      var result := Evaluate(lines, literals);
      if result.Failure? {
        return Failure(result.error);
      }
      var evaluated := result.value;
      var assets: seq<StatementLine>, liabilities: seq<StatementLine>, equity: seq<StatementLine> := [], [], [];
      var totals: Amounts := map[];
      for n := 0 to |mappings|
        invariant assets == SectionLines(mappings[..n], evaluated, ASSETS)
        invariant liabilities == SectionLines(mappings[..n], evaluated, LIABILITIES)
        invariant equity == SectionLines(mappings[..n], evaluated, EQUITY)
        invariant Names(totals, TOTALS, mappings[..n], evaluated)
      {
        var m := mappings[n];
        CodesSnoc(mappings, n);
        assert mappings[..n + 1][..n] == mappings[..n];
        var line := StatementLine(m.code, Get(evaluated, m.code), m.isSubtotal);
        match SectionOf(m.code) {
          case "assets" => assets := assets + [line];
          case "liabilities" => liabilities := liabilities + [line];
          case "equity" => equity := equity + [line];
          case _ =>
        }
        if m.code in TOTALS {
          totals := totals[m.code := Get(evaluated, m.code)];
        }
      }
      assert mappings[..|mappings|] == mappings;
      return Success(BalanceSheet(assets, liabilities, equity, totals));
    }
  }

  lemma CodesSnoc(ms: seq<Mapping>, n: nat)
    requires n < |ms|
    ensures Codes(ms[..n + 1]) == Codes(ms[..n]) + {ms[n].code}
  {
    forall code
      ensures code in Codes(ms[..n + 1]) <==> code in Codes(ms[..n]) || code == ms[n].code
    {
      if code in Codes(ms[..n]) {
        var i :| 0 <= i < n && ms[..n][i].code == code;
        assert ms[..n + 1][i].code == code;
      }
      assert ms[..n + 1][n].code == ms[n].code;
      if code in Codes(ms[..n + 1]) {
        var i :| 0 <= i < n + 1 && ms[..n + 1][i].code == code;
        assert i < n ==> ms[..n][i].code == code;
      }
    }
  }

  /**
   The two statements a builder makes satisfy their own subtotal formulas: in a well ordered mapping list the
   line of each computed subtotal shows its formula evaluated over the other lines.
   */
  lemma StatementSatisfiesFormulas(ms: seq<Mapping>, lines: seq<Line>, literals: Amounts,
                                   rows: seq<StatementLine>, i: nat)
    requires WellOrdered(ms) && i < |ms| && Computed(ms[i])
    requires Evaluated(ms, lines, literals).Success?
    requires StatesAll(rows, ms, Evaluated(ms, lines, literals).value)
    ensures Eval(ms[i].formula.value, Evaluated(ms, lines, literals).value, literals) == Success(rows[i].amount)
  {
    PassSolvesEquations(ms, AmountsOf(lines, ms), literals, i);
  }
}
