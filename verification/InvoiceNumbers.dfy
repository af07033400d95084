/** One row for each invoice number of an entity and book, however often and however concurrently it is sent. */
module InvoiceNumbers {
  import opened Prelude
  import opened Ledger
  import opened Phases
  import opened Transitions
  import V = Vouchers

  ghost predicate SameNumber(a: Invoice, b: Invoice) { SameInvoiceNo(a, b.entity, b.book, b.invoiceNo) }

  ghost predicate DistinctNumbers(invs: seq<Invoice>) {
    forall i, j :: 0 <= i < j < |invs| ==> !SameNumber(invs[i], invs[j])
  }

  lemma AddedNumberIsNew(db: DB, t: Task)
    requires t.InvoiceInsert? && Advance(db, t).0.invoices != db.invoices
    ensures forall i :: 0 <= i < |db.invoices| ==> !SameNumber(db.invoices[i], t.invoice)
  {
  }

  lemma StepKeepsNumbers(db: DB, t: Task)
    requires DistinctNumbers(db.invoices)
    ensures DistinctNumbers(Advance(db, t).0.invoices)
  {
    var invs, invs' := db.invoices, Advance(db, t).0.invoices;
    StepMovesInvoices(db, t);
    V.InvoiceRowsLast(db, t);
    if |invs'| > |invs| {
      AddedNumberIsNew(db, t);
    }
    forall i, j | 0 <= i < j < |invs'| ensures !SameNumber(invs'[i], invs'[j]) {
      if j < |invs| {
        assert !SameNumber(invs[i], invs[j]);
      }
    }
  }

  /** Row i keeps its number, and stays the only row that has it. */
  lemma {:induction false} NumberIsTakenForever(s: System, run: seq<Event>, i: Id)
    requires DistinctNumbers(s.db.invoices) && i < |s.db.invoices|
    ensures var invs := Exec(s, run).db.invoices;
            i < |invs| && SameNumber(invs[i], s.db.invoices[i]) && DistinctNumbers(invs)
  {
    if run != [] {
      var n := |run| - 1;
      NumberIsTakenForever(s, run[..n], i);
      var mid := Exec(s, run[..n]);
      if run[n].Turn? && run[n].i < |mid.tasks| {
        StepKeepsNumbers(mid.db, mid.tasks[run[n].i]);
        V.InvoiceRowsLast(mid.db, mid.tasks[run[n].i]);
      }
    }
  }

  /** The UNIQUE key over entity, book and invoice number holds in every reachable state. */
  lemma {:induction false} InvoiceNumbersNeverRepeat(periods: map<PeriodKey, PeriodStatus>, run: seq<Event>)
    ensures DistinctNumbers(Exec(Fresh(periods), run).db.invoices)
  {
    if run != [] {
      var n := |run| - 1;
      InvoiceNumbersNeverRepeat(periods, run[..n]);
      var mid := Exec(Fresh(periods), run[..n]);
      if run[n].Turn? && run[n].i < |mid.tasks| {
        StepKeepsNumbers(mid.db, mid.tasks[run[n].i]);
      }
    }
  }

  lemma FindsOnlyRow(invs: seq<Invoice>, i: nat, inv: Invoice)
    requires DistinctNumbers(invs) && i < |invs| && SameNumber(invs[i], inv)
    ensures FindByInvoiceNo(invs, inv.entity, inv.book, inv.invoiceNo) == Some(i)
  {
    var found := FindByInvoiceNo(invs, inv.entity, inv.book, inv.invoiceNo);
    assert found.Some?;
    assert SameNumber(invs[found.value], invs[i]) && SameNumber(invs[i], invs[found.value]);
  }

  /**
   Once row i has its number, any later call that sends the number again changes nothing, and it answers i
   exactly if the invoice is acceptable and its period is not closed by then.
   */
  lemma {:induction false} ResendingFindsTheRow(s: System, run: seq<Event>, i: Id, inv: Invoice, datePeriod: string,
                                                wellFormed: bool)
    requires DistinctNumbers(s.db.invoices) && i < |s.db.invoices| && SameNumber(s.db.invoices[i], inv)
    ensures var db := Exec(s, run).db;
            var (db', reply) := Apply(db, CreateInvoice(inv, datePeriod, wellFormed));
            && db' == db
            && (reply.Ok? ==> reply == Ok(i))
            && (reply.Ok? <==> AcceptableInvoice(inv, wellFormed)
                               && (inv.book == "" || !IsClosed(db, PeriodKey(inv.entity, inv.book, datePeriod))))
  {
    NumberIsTakenForever(s, run, i);
    FindsOnlyRow(Exec(s, run).db.invoices, i, inv);
  }
}
