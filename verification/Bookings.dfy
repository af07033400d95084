/** On which accounts, and on which side, an invoice is booked, for one draft and for the drafts of any invoices. */
module Bookings {
  import opened Prelude
  import opened Ledger
  import opened Grouping
  import opened VatReport
  import Balance

  const RECEIVABLE: Account := ("1122", "应收账款")
  const REVENUE: Account := ("6001", "主营业务收入")
  const BANK: Account := ("1002", "银行存款")

  /** The total debits and credits of an account. */
  predicate Columns(lines: seq<Line>, a: Account, debit: int, credit: int) {
    SumOf(lines, AccountOf, a, LineDebit) == debit && SumOf(lines, AccountOf, a, LineCredit) == credit
  }

  /** Every line names the column that it uses. */
  predicate OnNamedSide(lines: seq<Line>) {
    forall i :: 0 <= i < |lines| ==>
      (lines[i].direction == "debit" && lines[i].credit == 0) || (lines[i].direction == "credit" && lines[i].debit == 0)
  }

  function If(c: bool, amount: int): int { if c then amount else 0 }

  /** A sale debits the customer with gross, and credits revenue with net and output tax with the tax. */
  predicate SaleOn(lines: seq<Line>, inv: Invoice, a: Account) {
    Columns(lines, a, If(a == RECEIVABLE, inv.gross), If(a == REVENUE, inv.net) + If(a == OUTPUT_TAX, inv.tax))
  }

  /** A purchase debits its expense account with net and input tax with the tax, and credits the bank with gross. */
  predicate PurchaseOn(lines: seq<Line>, inv: Invoice, a: Account) {
    Columns(lines, a, If(a == ExpenseAccount(inv), inv.net) + If(a == INPUT_TAX, inv.tax), If(a == BANK, inv.gross))
  }

  /** Whatever the account, the lines carry on it what the invoice brings to it, and nothing else. */
  ghost predicate BooksInvoice(lines: seq<Line>, inv: Invoice) {
    && |lines| == 3 && OnNamedSide(lines)
    && forall a :: if inv.direction == "output" then SaleOn(lines, inv, a) else PurchaseOn(lines, inv, a)
  }

  /** The five accounts are different ones. */
  lemma AccountsDiffer()
    ensures Distinct([RECEIVABLE, REVENUE, OUTPUT_TAX, INPUT_TAX, BANK])
  {
    TaxAccountsDiffer();
    assert RECEIVABLE.0[0] == '1' && RECEIVABLE.0[1] == '1' && REVENUE.0[0] == '6';
    assert BANK.0[0] == '1' && BANK.0[1] == '0' && |BANK.0| == |RECEIVABLE.0| == |REVENUE.0| == 4;
  }

  lemma ThreeLines(l: seq<Line>, a: Account, f: Line -> int)
    requires |l| == 3
    ensures SumOf(l, AccountOf, a, f)
            == If(AccountOf(l[0]) == a, f(l[0])) + If(AccountOf(l[1]) == a, f(l[1])) + If(AccountOf(l[2]) == a, f(l[2]))
  {
    assert l == [l[0]] + [l[1]] + [l[2]];
    SumOfConcat([l[0]] + [l[1]], [l[2]], AccountOf, a, f);
    SumOfConcat([l[0]], [l[1]], AccountOf, a, f);
    SumOfSingle(l[0], AccountOf, a, f);
    SumOfSingle(l[1], AccountOf, a, f);
    SumOfSingle(l[2], AccountOf, a, f);
  }

  lemma SaleIsBooked(inv: Invoice, a: Account)
    ensures SaleOn(OutputLines(inv), inv, a)
  {
    ThreeLines(OutputLines(inv), a, LineDebit);
    ThreeLines(OutputLines(inv), a, LineCredit);
  }

  lemma PurchaseIsBooked(inv: Invoice, a: Account)
    ensures PurchaseOn(InputLines(inv), inv, a)
  {
    ThreeLines(InputLines(inv), a, LineDebit);
    ThreeLines(InputLines(inv), a, LineCredit);
  }

  /** Every invoice's draft books it so, with each line on the side it names. */
  lemma DraftBooksInvoice(inv: Invoice)
    ensures BooksInvoice(InvoiceLines(inv), inv)
  {
    var lines := InvoiceLines(inv);
    forall a ensures if IsOutput(inv) then SaleOn(lines, inv, a) else PurchaseOn(lines, inv, a) {
      SaleIsBooked(inv, a);
      PurchaseIsBooked(inv, a);
    }
  }

  // ---- The drafts of any invoices ----

  /** What some invoices bring to an account by their summary, and by the expense accounts of the purchases. */
  function SummaryNet(invs: seq<Invoice>, a: Account): int {
    var s := SummaryOf(invs);
    If(a == RECEIVABLE, s.outputGross) - If(a == REVENUE, s.outputNet) - If(a == OUTPUT_TAX, s.outputTax)
    + If(a == INPUT_TAX, s.inputTax) - If(a == BANK, s.inputGross) + SumOf(invs, ExpenseAccount, a, InputNet)
  }

  lemma OneInvoiceNet(inv: Invoice, a: Account)
    ensures Balance.Net(InvoiceLines(inv), a)
            == If(a == RECEIVABLE, OutputGross(inv)) - If(a == REVENUE, OutputNet(inv))
               - If(a == OUTPUT_TAX, OutputTax(inv)) + If(a == INPUT_TAX, InputTax(inv))
               - If(a == BANK, InputGross(inv)) + If(a == ExpenseAccount(inv), InputNet(inv))
  {
    Balance.NetIsDifference(InvoiceLines(inv), a);
    SaleIsBooked(inv, a);
    PurchaseIsBooked(inv, a);
  }

  /**
   Account by account, the drafts of any invoices carry the invoices' summary: receivables the gross sales, revenue
   the net sales, the bank the gross purchases, the tax accounts the taxes, and each expense account its purchases.
   */
  lemma {:induction false} DraftsCarrySummary(invs: seq<Invoice>, a: Account)
    ensures Balance.Net(DraftLines(invs), a) == SummaryNet(invs, a)
  {
    if invs != [] {
      var n := |invs| - 1;
      DraftsCarrySummary(invs[..n], a);
      OneInvoiceNet(invs[n], a);
      SumOfConcat(DraftLines(invs[..n]), InvoiceLines(invs[n]), AccountOf, a, LineNet);
    }
  }
}
