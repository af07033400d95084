/** From an invoice to the statement: what booking an invoice does to the seeded net profit of its month. */
module InvoicedProfit {
  import L = Ledger
  import opened Prelude
  import opened Report
  import opened SeededProfit
  import opened VoidedStatement
  import Answers

  function NetProfit(db: L.DB, k: L.PeriodKey): int { Sum(ReportLines(L.PostedLines(db.entries, k)), Weighted) }

  /** That is the net profit that the seeded statement of the posted lines shows. */
  lemma NetProfitIsShown(db: L.DB, k: L.PeriodKey)
    ensures var lines := ReportLines(L.PostedLines(db.entries, k));
            Evaluated(SEEDED, lines, map[]).Success? && Get(Final(lines), "net_profit") == NetProfit(db, k)
  {
    SeededNetProfit(ReportLines(L.PostedLines(db.entries, k)));
  }

  lemma {:induction false} ProfitConcat(a: seq<L.Line>, b: seq<L.Line>)
    ensures Sum(ReportLines(a + b), Weighted) == Sum(ReportLines(a), Weighted) + Sum(ReportLines(b), Weighted)
  {
    if b == [] {
      assert a + b == a;
    } else {
      var n := |b| - 1;
      assert (a + b)[..|a + b| - 1] == a + b[..n];
      ProfitConcat(a, b[..n]);
    }
  }

  lemma ThreeLinesProfit(l: seq<L.Line>)
    requires |l| == 3
    ensures Sum(ReportLines(l), Weighted)
            == Weighted(ReportLine(l[0])) + Weighted(ReportLine(l[1])) + Weighted(ReportLine(l[2]))
  {
    assert l == [l[0]] + [l[1]] + [l[2]];
    ProfitConcat([l[0]] + [l[1]], [l[2]]);
    ProfitConcat([l[0]], [l[1]]);
    OneLineProfit(l[0]);
    OneLineProfit(l[1]);
    OneLineProfit(l[2]);
  }

  lemma OneLineProfit(l: L.Line)
    ensures Sum(ReportLines([l]), Weighted) == Weighted(ReportLine(l))
  {
    assert [l][..0] == [];
    assert ReportLines([l]) == [ReportLine(l)];
    SumSingle(ReportLine(l), Weighted);
  }

  /** An account that begins neither with 5 nor with 6 has no weight in net profit. */
  lemma NoWeight(account: string)
    requires |account| > 0 && account[0] != '5' && account[0] != '6'
    ensures Weight(account) == 0
  {
    forall p: string | HasPrefix(account, p) && |p| > 0 ensures p[0] == account[0] {
      assert account[..|p|][0] == p[0];
    }
  }

  lemma AccountWeights()
    ensures Weight("1122") == Weight("1002") == Weight("2221-01") == Weight("2221-02") == 0 && Weight("6001") == 1
  {
    NoWeight("1122");
    NoWeight("1002");
    NoWeight("2221-01");
    NoWeight("2221-02");
    assert HasPrefix("6001", "6001");
    SeededOverlaps("6001");
  }

  lemma LineProfit(l: L.Line, weight: int, amount: int)
    requires Weight(l.code) == weight
    requires amount == if l.direction == "debit" then l.debit else l.credit
    ensures Weighted(ReportLine(l)) == weight * amount
  {
  }

  /** A sale shows its net amount as profit; a purchase its net amount with the weight of its expense account. */
  function ProfitOf(inv: L.Invoice): int {
    if inv.direction == "output" then inv.net else Weight(inv.expenseCode) * inv.net
  }

  lemma SaleProfit(inv: L.Invoice)
    ensures Sum(ReportLines(L.OutputLines(inv)), Weighted) == inv.net
  {
    var l := L.OutputLines(inv);
    AccountWeights();
    ThreeLinesProfit(l);
    LineProfit(l[0], 0, inv.gross);
    LineProfit(l[1], 1, inv.net);
    LineProfit(l[2], 0, inv.tax);
  }

  lemma PurchaseProfit(inv: L.Invoice)
    ensures Sum(ReportLines(L.InputLines(inv)), Weighted) == Weight(inv.expenseCode) * inv.net
  {
    var l := L.InputLines(inv);
    AccountWeights();
    ThreeLinesProfit(l);
    LineProfit(l[0], Weight(inv.expenseCode), inv.net);
    LineProfit(l[1], 0, inv.tax);
    LineProfit(l[2], 0, inv.gross);
  }

  lemma BookedProfit(es: seq<L.Entry>, e: L.Entry, inv: L.Invoice)
    requires L.KeyOf(e) == L.InvoiceKey(inv) && e.status == L.Posted && e.lines == L.InvoiceLines(inv)
    ensures var k := L.InvoiceKey(inv);
            Sum(ReportLines(L.PostedLines(es + [e], k)), Weighted)
            == Sum(ReportLines(L.PostedLines(es, k)), Weighted) + ProfitOf(inv)
  {
    assert (es + [e])[..|es|] == es;
    ProfitConcat(L.PostedLines(es, L.InvoiceKey(inv)), e.lines);
    SaleProfit(inv);
    PurchaseProfit(inv);
  }

  lemma ExpenseLowers(inv: L.Invoice)
    ensures inv.direction != "output" && inv.expenseCode == "5602" ==> ProfitOf(inv) == -inv.net
  {
    assert HasPrefix("5602", "5602");
    SeededOverlaps("5602");
  }

  /**
   An invoice that goes through moves the net profit of its month by exactly that, whatever was posted before: taxes,
   receivables and the bank never reach it, and an administrative expense lowers it by its net amount.
   */
  lemma InvoiceMovesProfit(db: L.DB, inv: L.Invoice, datePeriod: string)
    requires Answers.CanGoThrough(db, inv, datePeriod)
    ensures var db1 := L.Apply(db, L.CreateInvoice(inv, datePeriod, true)).0;
            var db2 := L.Apply(db1, L.Approve(inv.entity, |db.invoices|)).0;
            var db3 := L.Apply(db2, L.Post(inv.entity, |db.entries|)).0;
            NetProfit(db3, L.InvoiceKey(inv)) == NetProfit(db, L.InvoiceKey(inv)) + ProfitOf(inv)
    ensures inv.direction != "output" && inv.expenseCode == "5602" ==> ProfitOf(inv) == -inv.net
  {
    Answers.NewInvoiceIsCreated(db, inv, datePeriod);
    Answers.NewInvoiceIsApproved(db, inv);
    Answers.NewDraftIsPosted(db, inv);
    BookedProfit(db.entries, Answers.DraftOf(db, inv).(status := L.Posted), inv);
    ExpenseLowers(inv);
  }
}
