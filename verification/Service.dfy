/**
 The service object: its methods read and change the three tables in place, one statement after another, and
 each is proved to do to the tables what its call function in Ledger says.
 */
module Service {
  import opened Prelude
  import opened Ledger
  import opened Grouping
  import opened Histories
  import Balance
  import TB = TrialBalance
  import Vat = VatReport

  class Service {
    var entries: seq<Entry>
    var invoices: seq<Invoice>
    var periods: map<PeriodKey, PeriodStatus>

    function Db(): DB
      reads this
    {
      DB(entries, invoices, periods)
    }

    constructor (periods: map<PeriodKey, PeriodStatus>)
      ensures Db() == DB([], [], periods)
    {
      this.entries, this.invoices, this.periods := [], [], periods;
    }

    // ---- Stores ----

    /** Give up the open transaction. */
    method Rollback(saved: DB)
      modifies this
      ensures Db() == saved
    {
      entries, invoices, periods := saved.entries, saved.invoices, saved.periods;
    }

    /** Insert the header, unless its voucher number is taken, and then its lines one by one. */
    method CreateRows(entry: Entry) returns (reply: Reply)
      modifies `entries
      ensures (Db(), reply) == InsertEntry(old(Db()), entry)
    {
      if VoucherTaken(entries, KeyOf(entry), entry.voucherNo) {
        return Err(Duplicate);
      }
      var id := |entries|;
      entries := entries + [entry.(lines := [])];
      for n := 0 to |entry.lines|
        invariant entries == old(entries) + [entry.(lines := entry.lines[..n])]
      {
        entries := entries[id := entries[id].(lines := entries[id].lines + [entry.lines[n]])];
        assert entry.lines[..n + 1] == entry.lines[..n] + [entry.lines[n]];
      }
      assert entry.lines[..|entry.lines|] == entry.lines;
      return Ok(id);
    }

    /** draft becomes posted. */
    method PostRow(entity: string, id: Id) returns (changed: bool)
      modifies `entries
      ensures changed <==> FindEntry(old(Db()), entity, id).Some? && old(entries)[id].status == Draft
      ensures Db() == if changed then SetStatus(old(Db()), id, Posted) else old(Db())
    {
      changed := id < |entries| && entries[id].entity == entity && entries[id].status == Draft;
      if changed {
        entries := entries[id := entries[id].(status := Posted)];
      }
    }

    /** draft or posted becomes voided. */
    method VoidRow(entity: string, id: Id) returns (changed: bool)
      modifies `entries
      ensures changed <==> CasVoid(old(Db()), entity, id).Some?
      ensures Db() == if changed then CasVoid(old(Db()), entity, id).value else old(Db())
    {
      changed := id < |entries| && entries[id].entity == entity
                 && (entries[id].status == Draft || entries[id].status == Posted);
      if changed {
        entries := entries[id := entries[id].(status := Voided)];
      }
    }

    method UpdateInvoiceStatus(entity: string, id: Id, from: InvoiceStatus, to: InvoiceStatus) returns (changed: bool)
      modifies `invoices
      ensures changed <==> CasInvoice(old(Db()), entity, id, from, to).Some?
      ensures Db() == if changed then CasInvoice(old(Db()), entity, id, from, to).value else old(Db())
    {
      changed := id < |invoices| && invoices[id].entity == entity && invoices[id].status == from;
      if changed {
        invoices := invoices[id := invoices[id].(status := to)];
      }
    }

    method UpdatePeriodStatus(k: PeriodKey, from: PeriodStatus, to: PeriodStatus) returns (changed: bool)
      modifies `periods
      ensures changed <==> CasPeriod(old(Db()), k, from, to).Some?
      ensures Db() == if changed then CasPeriod(old(Db()), k, from, to).value else old(Db())
    {
      changed := k in periods && periods[k] == from;
      if changed {
        periods := periods[k := to];
      }
    }

    /** The lines of the posted entries of a period, ordered by account code. */
    method ListPostedLines(k: PeriodKey) returns (lines: seq<Line>)
      ensures SortedBy(lines, LineLe)
      ensures multiset(lines) == multiset(PostedLines(entries, k))
    {
      LineOrder();
      lines := Sort(PostedLines(entries, k), LineLe);
    }

    // ---- Journal ----

    method ValidateBalanced(lines: seq<Line>) returns (ok: bool)
      ensures ok == Balanced(lines)
    {
      var debit, credit := 0, 0;
      for n := 0 to |lines|
        invariant debit == Debits(lines[..n]) && credit == Credits(lines[..n])
      {
        assert lines[..n + 1][..n] == lines[..n];
        debit := debit + lines[n].debit;
        credit := credit + lines[n].credit;
      }
      assert lines[..|lines|] == lines;
      ok := debit == credit;
    }

    method BuildReversal(original: Entry, voucherNo: string) returns (rev: Entry)
      ensures rev == Reversal(original, voucherNo, Draft)
    {
      var lines: seq<Line> := [];
      for n := 0 to |original.lines|
        invariant lines == Mirror(original.lines[..n])
      {
        var l := original.lines[n];
        assert original.lines[..n + 1][..n] == original.lines[..n];
        lines := lines + [Line(l.code, l.name, ReverseDirection(l.direction), l.credit, l.debit)];
      }
      assert original.lines[..|original.lines|] == original.lines;
      rev := Entry(original.entity, original.book, original.period, voucherNo, original.source, Draft, lines);
    }

    method CreateJournalDraft(entity: string, book: string, period: string, voucherNo: string,
                              source: Option<Id>, lines: seq<Line>) returns (reply: Reply)
      modifies this
      ensures (Db(), reply) == Apply(old(Db()), CreateDraft(entity, book, period, voucherNo, source, lines))
    {
      if lines == [] {
        return Err(InvalidRequest);
      }
      var k := PeriodKey(entity, book, period);
      var v := voucherNo;
      if v == "" {
        v := NextVoucherNo(Db(), k);
      }
      if period != "" && !ValidPeriod(period) {
        return Err(InvalidRequest);
      }
      if IsClosed(Db(), k) {
        return Err(PeriodClosed);
      }
      var ok := ValidateBalanced(lines);
      if !ok {
        return Err(InvalidRequest);
      }
      reply := CreateRows(DraftEntry(entity, book, period, v, source, lines));
    }

    method UpdateJournalDraft(entity: string, id: Id, source: Option<Id>, lines: seq<Line>) returns (reply: Reply)
      modifies this
      ensures (Db(), reply) == Apply(old(Db()), UpdateDraft(entity, id, source, lines))
    {
      if id >= |entries| || entries[id].entity != entity {
        return Err(NotFound);
      }
      var existing := entries[id];
      if existing.status != Draft {
        return Err(WrongStatus);
      }
      var voided := VoidRow(entity, id);
      if !voided {
        return Err(NotFound);
      }
      var ok := ValidateBalanced(lines);
      if !ok {
        return Err(InvalidRequest);
      }
      reply := CreateRows(DraftEntry(entity, existing.book, existing.period, existing.voucherNo, source, lines));
    }

    method PostJournalEntry(entity: string, id: Id) returns (reply: Reply)
      modifies this
      ensures (Db(), reply) == Apply(old(Db()), Post(entity, id))
    {
      if id >= |entries| || entries[id].entity != entity {
        return Err(NotFound);
      }
      var entry := entries[id];
      if IsClosed(Db(), KeyOf(entry)) {
        return Err(PeriodClosed);
      }
      if entry.status == Posted {
        return Ok(id);
      }
      if entry.lines == [] {
        return Err(InvalidRequest);
      }
      var ok := ValidateBalanced(entry.lines);
      if !ok {
        return Err(InvalidRequest);
      }
      var posted := PostRow(entity, id);
      if !posted {
        return Err(WrongStatus);
      }
      if entry.source.Some? {
        var marked := UpdateInvoiceStatus(entity, entry.source.value, Approved, InvoicePosted);
      }
      return Ok(id);
    }

    method VoidJournalEntry(entity: string, id: Id) returns (reply: Reply)
      modifies this
      ensures (Db(), reply) == Apply(old(Db()), Void(entity, id))
    {
      if id >= |entries| || entries[id].entity != entity {
        return Err(NotFound);
      }
      var entry := entries[id];
      if IsClosed(Db(), KeyOf(entry)) {
        return Err(PeriodClosed);
      }
      if entry.status != Posted {
        var voided := VoidRow(entity, id);
        if voided {
          return Ok(id);
        }
        return Err(NotFound);
      }
      reply := ReverseAndVoidInTransaction(entity, id, entry);
    }

    method ReverseAndVoidInTransaction(entity: string, id: Id, entry: Entry) returns (reply: Reply)
      requires FindEntry(Db(), entity, id) == Some(entry)
      modifies this
      ensures (Db(), reply) == ReverseAndVoid(old(Db()), entity, id, entry, NextVoucherNo(old(Db()), KeyOf(entry)))
    {
      var saved := Db();
      var voucherNo := NextVoucherNo(saved, KeyOf(entry));
      var rev := BuildReversal(entry, voucherNo);
      var created := CreateRows(rev);
      if created.Err? {
        Rollback(saved);
        return created;
      }
      var revId := created.id;
      var posted := PostRow(entity, revId);
      assert entries == saved.entries + [Reversal(entry, voucherNo, Posted)];
      var voided := VoidRow(entity, id);
      if !voided {
        Rollback(saved);
        return Err(NotFound);
      }
      return Ok(id);
    }

    method BatchPostJournals(entity: string, ids: seq<Id>) returns (posted: seq<Id>, failure: Option<Error>)
      modifies this
      ensures (Db(), |posted|, failure) == BatchPost(old(Db()), entity, ids)
      ensures posted <= ids
    {
      posted := [];
      for i := 0 to |ids|
        invariant posted == ids[..i]
        invariant var (db', m, err) := BatchPost(Db(), entity, ids[i..]);
                  BatchPost(old(Db()), entity, ids) == (db', m + i, err)
      {
        assert ids[i..][0] == ids[i] && ids[i..][1..] == ids[i + 1..];
        var reply := PostJournalEntry(entity, ids[i]);
        if reply.Err? {
          return posted, Some(reply.error);
        }
        posted := posted + [ids[i]];
      }
      return posted, None;
    }

    // ---- Reports ----

    /** The trial balance of a period states the posted lines of that period, whatever order they came in. */
    method TrialBalance(k: PeriodKey) returns (rows: seq<TB.Row>, totalDebit: int, totalCredit: int, balanced: bool)
      ensures forall i :: 0 <= i < |rows| ==> TB.RowOf(PostedLines(entries, k), rows[i])
      ensures forall a :: TB.HasRow(rows, a) <==> TB.Mentions(PostedLines(entries, k), a)
      ensures forall i, j :: 0 <= i < j < |rows| ==>
                TB.RowAccount(rows[i]) != TB.RowAccount(rows[j]) && StringLe(rows[i].code, rows[j].code)
      ensures totalDebit == Debits(PostedLines(entries, k)) && totalCredit == Credits(PostedLines(entries, k))
      ensures Sum(rows, TB.RowDebit) == totalDebit && Sum(rows, TB.RowCredit) == totalCredit
      ensures balanced == Balanced(PostedLines(entries, k))
    {
      var lines := ListPostedLines(k);
      var posted := PostedLines(entries, k);
      rows, totalDebit, totalCredit, balanced := TB.TrialBalance(lines);
      SumPermutation(lines, posted, LineDebit);
      SumPermutation(lines, posted, LineCredit);
      TB.MentionsPermutes(lines, posted);
      forall i | 0 <= i < |rows|
        ensures TB.RowOf(posted, rows[i])
      {
        SumOfPermutes(lines, posted, AccountOf, TB.RowAccount(rows[i]), LineDebit);
        SumOfPermutes(lines, posted, AccountOf, TB.RowAccount(rows[i]), LineCredit);
      }
    }

    /**
     The trial balance of a period with the balance of each account; over all accounts they agree exactly if the
     posted lines balance, as they do in all tables that clean drafts can lead to.
     */
    method AccountBalance(k: PeriodKey) returns (rows: seq<TB.Row>, balances: seq<TB.BalanceRow>)
      ensures |balances| == |rows|
      ensures forall i :: 0 <= i < |rows| ==>
                TB.RowOf(PostedLines(entries, k), rows[i]) && TB.EndsOnOneSide(rows[i], balances[i])
      ensures forall a :: TB.HasRow(rows, a) <==> TB.Mentions(PostedLines(entries, k), a)
      ensures forall i, j :: 0 <= i < j < |rows| ==>
                TB.RowAccount(rows[i]) != TB.RowAccount(rows[j]) && StringLe(rows[i].code, rows[j].code)
      ensures Balanced(PostedLines(entries, k))
              <==> Sum(balances, TB.EndingDebit) == Sum(balances, TB.EndingCredit)
      ensures Balance.Reached(Db()) ==> Sum(balances, TB.EndingDebit) == Sum(balances, TB.EndingCredit)
    {
      var totalDebit, totalCredit, balanced;
      rows, totalDebit, totalCredit, balanced := TrialBalance(k);
      balances := TB.EndingBalances(rows);
      if Balance.Reached(Db()) {
        Balance.ReachedBalances(Db(), k);
      }
      assert Sum(balances, TB.EndingDebit) - Sum(balances, TB.EndingCredit) == totalDebit - totalCredit;
    }

    /** The summary of the posted invoices of a period, whose name must be well formed. */
    method VATSummary(k: PeriodKey) returns (r: Result<Vat.Summary, Error>)
      ensures r == if ValidPeriod(k.period) then Success(Vat.SummaryOf(PostedInvoices(invoices, k)))
                   else Failure(InvalidRequest)
    {
      if !ValidPeriod(k.period) {
        return Failure(InvalidRequest);
      }
      var s := Vat.VATSummary(PostedInvoices(invoices, k));
      return Success(s);
    }

    // ---- Invoices ----

    method CreateInvoiceDraft(inv: Invoice, datePeriod: string, wellFormed: bool) returns (reply: Reply)
      modifies this
      ensures (Db(), reply) == Apply(old(Db()), CreateInvoice(inv, datePeriod, wellFormed))
    {
      if !AcceptableInvoice(inv, wellFormed) {
        return Err(InvalidRequest);
      }
      if inv.book != "" && IsClosed(Db(), PeriodKey(inv.entity, inv.book, datePeriod)) {
        return Err(PeriodClosed);
      }
      var existing := FindByInvoiceNo(invoices, inv.entity, inv.book, inv.invoiceNo);
      if existing.Some? {
        return Ok(existing.value);
      }
      invoices := invoices + [inv.(status := Pending)];
      return Ok(|invoices| - 1);
    }

    method BuildJournalDraft(inv: Invoice, id: Id) returns (draft: Option<Entry>)
      ensures draft == if SoundAmounts(inv) then Some(InvoiceDraft(inv, id, NextVoucherNo(Db(), InvoiceKey(inv))))
                       else None
    {
      if inv.net < 0 || inv.tax < 0 || inv.gross < 0 || inv.net + inv.tax != inv.gross {
        return None;
      }
      var entry := InvoiceDraft(inv, id, NextVoucherNo(Db(), InvoiceKey(inv)));
      var ok := ValidateBalanced(entry.lines);
      Balance.InvoiceLinesBalance(inv);
      if !ok {
        return None;
      }
      return Some(entry);
    }

    method ApproveInvoice(entity: string, id: Id) returns (reply: Reply)
      modifies this
      ensures (Db(), reply) == Apply(old(Db()), Approve(entity, id))
    {
      if id >= |invoices| || invoices[id].entity != entity {
        return Err(NotFound);
      }
      var inv := invoices[id];
      if IsClosed(Db(), InvoiceKey(inv)) {
        return Err(PeriodClosed);
      }
      var saved := Db();
      var approved := UpdateInvoiceStatus(entity, id, Pending, Approved);
      if !approved {
        Rollback(saved);
        return Err(WrongStatus);
      }
      var draft := BuildJournalDraft(inv, id);
      Balance.InvoiceLinesBalance(inv);
      if draft.None? {
        Rollback(saved);
        return Err(InvalidRequest);
      }
      var created := CreateRows(draft.value);
      if created.Err? {
        Rollback(saved);
        return created;
      }
      return Ok(id);
    }

    method RejectInvoice(entity: string, id: Id) returns (reply: Reply)
      modifies this
      ensures (Db(), reply) == Apply(old(Db()), Reject(entity, id))
    {
      var changed := UpdateInvoiceStatus(entity, id, Pending, Rejected);
      return if changed then Ok(id) else Err(WrongStatus);
    }

    // ---- Periods ----

    const LIST_LIMIT := 1000

    method PendingInvoiceCount(k: PeriodKey) returns (count: nat)
      ensures count == if PendingCount(invoices, k) > 1000 then 1000 else PendingCount(invoices, k)
      ensures count > 0 <==> HasPendingInvoice(Db(), k)
    {
      count := 0;
      for n := 0 to |invoices|
        invariant count == UpTo(LIST_LIMIT, PendingCount(invoices[..n], k))
      {
        assert invoices[..n + 1][..n] == invoices[..n];
        if IsPending(invoices[n], k) && count < LIST_LIMIT {
          count := count + 1;
        }
      }
      assert invoices[..|invoices|] == invoices;
      SomePending(invoices, k);
    }

    method DraftJournalCount(k: PeriodKey) returns (count: nat)
      ensures count == if DraftCount(entries, k) > 1000 then 1000 else DraftCount(entries, k)
      ensures count > 0 <==> HasDraft(Db(), k)
    {
      count := 0;
      for n := 0 to |entries|
        invariant count == UpTo(LIST_LIMIT, DraftCount(entries[..n], k))
      {
        assert entries[..n + 1][..n] == entries[..n];
        if IsDraft(entries[n], k) && count < LIST_LIMIT {
          count := count + 1;
        }
      }
      assert entries[..|entries|] == entries;
      SomeDraft(entries, k);
    }

    method CloseCheck(k: PeriodKey) returns (passed: bool)
      ensures passed == CloseCheckPasses(Db(), k)
    {
      passed := true;
      var pending := PendingInvoiceCount(k);
      if pending > 0 {
        passed := false;
      }
      var drafts := DraftJournalCount(k);
      if drafts > 0 {
        passed := false;
      }
      var rows, totalDebit, totalCredit, balanced := TrialBalance(k);
      if Abs(totalDebit - totalCredit) >= 1 {
        passed := false;
      }
    }

    method ClosePeriod(k: PeriodKey) returns (reply: Reply)
      modifies this
      ensures (Db(), reply) == Apply(old(Db()), Close(k))
    {
      if k.book == "" {
        return Err(InvalidRequest);
      }
      var begun := UpdatePeriodStatus(k, Open, Closing);
      if !begun {
        return Err(NotFound);
      }
      var passed := CloseCheck(k);
      if !passed {
        var undone := UpdatePeriodStatus(k, Closing, Open);
        return Err(CheckFailed);
      }
      var closed := UpdatePeriodStatus(k, Closing, Closed);
      return Ok(0);
    }

    method ReopenPeriod(k: PeriodKey) returns (reply: Reply)
      modifies this
      ensures (Db(), reply) == Apply(old(Db()), Reopen(k))
    {
      if k.book == "" {
        return Err(InvalidRequest);
      }
      var changed := UpdatePeriodStatus(k, Closed, Open);
      return if changed then Ok(0) else Err(NotFound);
    }

    method LockPeriod(k: PeriodKey) returns (reply: Reply)
      modifies this
      ensures (Db(), reply) == Apply(old(Db()), Lock(k))
    {
      if k.book == "" {
        return Err(InvalidRequest);
      }
      var changed := UpdatePeriodStatus(k, Closed, Locked);
      return if changed then Ok(0) else Err(NotFound);
    }

    method GetOrCreatePeriod(k: PeriodKey) returns (reply: Reply)
      modifies this
      ensures (Db(), reply) == Apply(old(Db()), OpenPeriod(k))
    {
      if k !in periods {
        periods := periods[k := Open];
      }
      return Ok(0);
    }
  }

  predicate LineLe(a: Line, b: Line) { StringLe(a.code, b.code) }

  lemma LineOrder()
    ensures TotalOrder(LineLe)
  {
    forall a: Line, b: Line ensures LineLe(a, b) || LineLe(b, a) {
      StringLeTotal(a.code, b.code);
    }
    forall a: Line, b: Line, c: Line | LineLe(a, b) && LineLe(b, c) ensures LineLe(a, c) {
      StringLeTransitive(a.code, b.code, c.code);
    }
  }

  function UpTo(limit: nat, n: nat): nat { if n < limit then n else limit }

  function PendingCount(invs: seq<Invoice>, k: PeriodKey): nat {
    if invs == [] then 0
    else PendingCount(invs[..|invs| - 1], k) + if IsPending(invs[|invs| - 1], k) then 1 else 0
  }

  function DraftCount(es: seq<Entry>, k: PeriodKey): nat {
    if es == [] then 0
    else DraftCount(es[..|es| - 1], k) + if IsDraft(es[|es| - 1], k) then 1 else 0
  }

  lemma {:induction false} SomePending(invs: seq<Invoice>, k: PeriodKey)
    ensures PendingCount(invs, k) > 0 <==> exists i :: 0 <= i < |invs| && IsPending(invs[i], k)
  {
    if invs != [] {
      var n := |invs| - 1;
      SomePending(invs[..n], k);
      if i :| 0 <= i < |invs| && IsPending(invs[i], k) {
        assert i < n ==> invs[..n][i] == invs[i];
      }
    }
  }

  lemma {:induction false} SomeDraft(es: seq<Entry>, k: PeriodKey)
    ensures DraftCount(es, k) > 0 <==> exists i :: 0 <= i < |es| && IsDraft(es[i], k)
  {
    if es != [] {
      var n := |es| - 1;
      SomeDraft(es[..n], k);
      if i :| 0 <= i < |es| && IsDraft(es[i], k) {
        assert i < n ==> es[..n][i] == es[i];
      }
    }
  }
}
