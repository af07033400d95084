/**
 The journal against the VAT summary: what each call moves on the tax accounts of a period's posted lines, what
 it moves in the taxes of the period's posted invoices, and so exactly which calls make the two disagree.
 */
module VatLedger {
  import opened Prelude
  import opened Ledger
  import opened Grouping
  import opened Transitions
  import opened Histories
  import opened VoidEffects
  import opened VatReport
  import opened Vouchers
  import Balance

  /** The tax accounts of the posted lines carry the taxes of the posted invoices. */
  predicate Agrees(db: DB, k: PeriodKey) {
    var lines, s := PostedLines(db.entries, k), SummaryOf(PostedInvoices(db.invoices, k));
    Balance.Net(lines, INPUT_TAX) == s.inputTax && Balance.Net(lines, OUTPUT_TAX) == -s.outputTax
  }

  // ---- Posting one entry, posting one invoice ----

  /** An update of a sequence, seen from its last element. */
  lemma UpdateSnoc<T>(s: seq<T>, id: nat, x: T)
    requires id < |s|
    ensures var n, s' := |s| - 1, s[id := x];
            && s == s[..n] + [s[n]] && s' == s'[..n] + [s'[n]]
            && s'[..n] == (if id < n then s[..n][id := x] else s[..n])
  {
  }

  /** Posting a row adds its lines to every column of its period. */
  lemma {:induction false} ColumnPosted(es: seq<Entry>, id: nat, k: PeriodKey, a: Account, f: Line -> int)
    requires id < |es| && es[id].status != Posted
    ensures Column(es[id := es[id].(status := Posted)], k, a, f)
            == Column(es, k, a, f) + if KeyOf(es[id]) == k then SumOf(es[id].lines, AccountOf, a, f) else 0
  {
    var n := |es| - 1;
    var es' := es[id := es[id].(status := Posted)];
    UpdateSnoc(es, id, es[id].(status := Posted));
    ColumnSnoc(es[..n], es[n], k, a, f);
    ColumnSnoc(es'[..n], es'[n], k, a, f);
    if id < n {
      ColumnPosted(es[..n], id, k, a, f);
    }
  }

  lemma PostedSumSnoc(invs: seq<Invoice>, inv: Invoice, k: PeriodKey, f: Invoice -> int)
    ensures Sum(PostedInvoices(invs + [inv], k), f)
            == Sum(PostedInvoices(invs, k), f) + if PostedIn(inv, k) then f(inv) else 0
  {
    assert (invs + [inv])[..|invs|] == invs;
    SumAppend(PostedInvoices(invs, k), [inv], f);
    SumSingle(inv, f);
    assert PostedInvoices(invs, k) + [] == PostedInvoices(invs, k);
  }

  /** Posting an invoice adds it to the sums of its period. */
  lemma {:induction false} PostedSumPosted(invs: seq<Invoice>, id: nat, k: PeriodKey, f: Invoice -> int)
    requires id < |invs| && invs[id].status != InvoicePosted
    requires f(invs[id].(status := InvoicePosted)) == f(invs[id])
    ensures Sum(PostedInvoices(invs[id := invs[id].(status := InvoicePosted)], k), f)
            == Sum(PostedInvoices(invs, k), f) + if InvoiceKey(invs[id]) == k then f(invs[id]) else 0
  {
    var n := |invs| - 1;
    var invs' := invs[id := invs[id].(status := InvoicePosted)];
    UpdateSnoc(invs, id, invs[id].(status := InvoicePosted));
    PostedSumSnoc(invs[..n], invs[n], k, f);
    PostedSumSnoc(invs'[..n], invs'[n], k, f);
    if id < n {
      PostedSumPosted(invs[..n], id, k, f);
    }
  }

  // ---- What a call moves ----

  /** The call voids a posted entry by posting its reversal. */
  predicate ReversesEntry(db: DB, req: Request) {
    && req.Void?
    && FindEntry(db, req.entity, req.id).Some?
    && var e := db.entries[req.id];
       e.status == Posted && !IsClosed(db, KeyOf(e)) && !Jammed(db, KeyOf(e))
  }

  /** On an account of the posted lines of k: the net of a draft posted, or twice the net of an entry reversed. */
  function LedgerMove(db: DB, req: Request, k: PeriodKey, a: Account): int {
    if PostsDraft(db, req) && KeyOf(db.entries[req.id]) == k then Balance.Net(db.entries[req.id].lines, a)
    else if ReversesEntry(db, req) && KeyOf(db.entries[req.id]) == k then -2 * Balance.Net(db.entries[req.id].lines, a)
    else 0
  }

  /** In a sum over the posted invoices of k: the share of an invoice posted with its draft. */
  function VatMove(db: DB, req: Request, k: PeriodKey, f: Invoice -> int): int {
    if PostsInvoiceOf(db, req, k) then f(db.invoices[db.entries[req.id].source.value]) else 0
  }

  lemma PostMovesLedger(db: DB, req: Request, k: PeriodKey, a: Account)
    requires req.Post?
    ensures Balance.Net(PostedLines(Apply(db, req).0.entries, k), a)
            == Balance.Net(PostedLines(db.entries, k), a) + LedgerMove(db, req, k, a)
  {
    PostTouches(db, req.entity, req.id);
    if PostsDraft(db, req) {
      ColumnPosted(db.entries, req.id, k, a, LineNet);
    } else {
      assert Apply(db, req).0.entries == db.entries;
    }
  }

  lemma UnpostedVoid(db: DB, entity: string, id: Id, k: PeriodKey)
    requires FindEntry(db, entity, id).Some? && db.entries[id].status != Posted
    ensures PostedLines(VoidCall(db, entity, id).0.entries, k) == PostedLines(db.entries, k)
  {
    VoidTouches(db, entity, id);
    Balance.PostedLinesSame(db.entries, VoidCall(db, entity, id).0.entries, k);
  }

  lemma ReversalGoesThrough(db: DB, req: Request)
    requires req.Void? && FindEntry(db, req.entity, req.id).Some? && db.entries[req.id].status == Posted
    ensures ReversesEntry(db, req) <==> VoidCall(db, req.entity, req.id).1.Ok?
    ensures !ReversesEntry(db, req) ==> VoidCall(db, req.entity, req.id).0 == db
  {
  }

  lemma {:induction false} VoidMovesLedger(db: DB, req: Request, k: PeriodKey, a: Account)
    requires req.Void?
    ensures Balance.Net(PostedLines(Apply(db, req).0.entries, k), a)
            == Balance.Net(PostedLines(db.entries, k), a) + LedgerMove(db, req, k, a)
  {
    if FindEntry(db, req.entity, req.id).Some? {
      if db.entries[req.id].status != Posted {
        UnpostedVoid(db, req.entity, req.id, k);
      } else {
        ReversalGoesThrough(db, req);
        if KeyOf(db.entries[req.id]) != k {
          VoidIsLocal(db, req.entity, req.id, k);
        } else if ReversesEntry(db, req) {
          VoidMovesNet(db, req.entity, req.id, a);
        }
      }
    }
  }

  lemma VoidMovesNet(db: DB, entity: string, id: Id, a: Account)
    requires EntryAt(db, id, Posted) && VoidCall(db, entity, id).1.Ok?
    ensures var e, db' := db.entries[id], VoidCall(db, entity, id).0;
            Balance.Net(PostedLines(db'.entries, KeyOf(e)), a)
            == Balance.Net(PostedLines(db.entries, KeyOf(e)), a) - 2 * Balance.Net(e.lines, a)
  {
    var k := KeyOf(db.entries[id]);
    VoidMovesTwice(db, entity, id, a);
    Balance.NetIsDifference(db.entries[id].lines, a);
    Balance.NetIsDifference(PostedLines(db.entries, k), a);
    Balance.NetIsDifference(PostedLines(VoidCall(db, entity, id).0.entries, k), a);
  }

  lemma DraftAdded(es: seq<Entry>, e: Entry, k: PeriodKey)
    requires e.status != Posted
    ensures PostedLines(es + [e], k) == PostedLines(es, k)
  {
    assert (es + [e])[..|es|] == es;
    assert PostedLines(es, k) + [] == PostedLines(es, k);
  }

  lemma CreateAddsDraft(db: DB, req: Request)
    requires req.CreateDraft?
    ensures var v := if req.voucherNo != "" then req.voucherNo
                     else NextVoucherNo(db, PeriodKey(req.entity, req.book, req.period));
            Apply(db, req).0 == db
            || Apply(db, req).0
               == AddEntry(db, DraftEntry(req.entity, req.book, req.period, v, req.source, req.lines))
  {
  }

  lemma OthersKeepPostedLines(db: DB, req: Request, k: PeriodKey)
    requires !req.Post? && !req.Void?
    ensures PostedLines(Apply(db, req).0.entries, k) == PostedLines(db.entries, k)
  {
    var es' := Apply(db, req).0.entries;
    match req
    case CreateDraft(_, _, _, _, _, _) =>
      CreateAddsDraft(db, req);
      if es' != db.entries { DraftAdded(db.entries, es'[|db.entries|], k); }
    case UpdateDraft(entity, id, source, lines) =>
      UpdateDraftNeverSucceeds(db, entity, id, source, lines);
      if es' != db.entries { Balance.PostedLinesSame(db.entries, es', k); }
    case Approve(entity, id) =>
      ApproveTouches(db, entity, id);
      if es' != db.entries { DraftAdded(db.entries, es'[|db.entries|], k); }
    case _ =>
  }

  /** Every call moves the posted lines of a period by exactly this, on every account. */
  lemma LedgerMoves(db: DB, req: Request, k: PeriodKey, a: Account)
    ensures Balance.Net(PostedLines(Apply(db, req).0.entries, k), a)
            == Balance.Net(PostedLines(db.entries, k), a) + LedgerMove(db, req, k, a)
  {
    if req.Post? {
      PostMovesLedger(db, req, k, a);
    } else if req.Void? {
      VoidMovesLedger(db, req, k, a);
    } else {
      OthersKeepPostedLines(db, req, k);
    }
  }

  lemma PostMovesVat(db: DB, entity: string, id: Id, k: PeriodKey, f: Invoice -> int)
    requires forall inv: Invoice :: f(inv.(status := InvoicePosted)) == f(inv)
    ensures Sum(PostedInvoices(PostCall(db, entity, id).0.invoices, k), f)
            == Sum(PostedInvoices(db.invoices, k), f) + VatMove(db, Post(entity, id), k, f)
  {
    PostMarks(db, entity, id);
    if PostCall(db, entity, id).0.invoices != db.invoices {
      PostedSumPosted(db.invoices, db.entries[id].source.value, k, f);
    }
  }

  /** And the sums over its posted invoices by exactly this, for every amount that does not depend on status. */
  lemma VatMoves(db: DB, req: Request, k: PeriodKey, f: Invoice -> int)
    requires forall inv: Invoice :: f(inv.(status := InvoicePosted)) == f(inv)
    ensures Sum(PostedInvoices(Apply(db, req).0.invoices, k), f)
            == Sum(PostedInvoices(db.invoices, k), f) + VatMove(db, req, k, f)
  {
    if req.Post? {
      PostMovesVat(db, req.entity, req.id, k, f);
    } else {
      OthersKeepVatList(db, req, k);
    }
  }

  // ---- When the two disagree ----

  /** The call moves a tax account otherwise than the tax it stands for. */
  predicate Breaks(db: DB, req: Request, k: PeriodKey) {
    || LedgerMove(db, req, k, INPUT_TAX) != VatMove(db, req, k, InputTax)
    || LedgerMove(db, req, k, OUTPUT_TAX) != -VatMove(db, req, k, OutputTax)
  }

  /** Whatever the call, the ledger and the VAT summary go on agreeing exactly if it is no such call. */
  lemma CallAgreesExactly(db: DB, req: Request, k: PeriodKey)
    requires Agrees(db, k)
    ensures Agrees(Apply(db, req).0, k) <==> !Breaks(db, req, k)
  {
    LedgerMoves(db, req, k, INPUT_TAX);
    LedgerMoves(db, req, k, OUTPUT_TAX);
    VatMoves(db, req, k, InputTax);
    VatMoves(db, req, k, OutputTax);
  }

  ghost predicate AgreesAlong(db: DB, history: seq<Request>, k: PeriodKey) {
    Agrees(ApplyAll(db, history), k) && (history == [] || AgreesAlong(db, history[..|history| - 1], k))
  }

  ghost predicate NothingBreaks(db: DB, history: seq<Request>, k: PeriodKey) {
    history == []
    || (NothingBreaks(db, history[..|history| - 1], k)
        && !Breaks(ApplyAll(db, history[..|history| - 1]), history[|history| - 1], k))
  }

  /** Along every history they agree after each call if and only if none of its calls breaks it. */
  lemma {:induction false} HistoryAgreesExactly(db: DB, history: seq<Request>, k: PeriodKey)
    requires Agrees(db, k)
    ensures AgreesAlong(db, history, k) <==> NothingBreaks(db, history, k)
  {
    if history != [] {
      var n := |history| - 1;
      HistoryAgreesExactly(db, history[..n], k);
      if AgreesAlong(db, history[..n], k) {
        CallAgreesExactly(ApplyAll(db, history[..n]), history[n], k);
      }
    }
  }

  /** A void of a posted entry breaks it exactly if the entry carries VAT. */
  lemma VoidAgreesExactly(db: DB, entity: string, id: Id)
    requires EntryAt(db, id, Posted) && VoidCall(db, entity, id).1.Ok? && Agrees(db, KeyOf(db.entries[id]))
    ensures Agrees(VoidCall(db, entity, id).0, KeyOf(db.entries[id]))
            <==> Balance.Net(db.entries[id].lines, INPUT_TAX) == 0 == Balance.Net(db.entries[id].lines, OUTPUT_TAX)
  {
    ReversalGoesThrough(db, Void(entity, id));
    CallAgreesExactly(db, Void(entity, id), KeyOf(db.entries[id]));
  }

  lemma TypedDraftLands(db: DB, k: PeriodKey, lines: seq<Line>)
    requires OpenFor(db, k) && !Jammed(db, k) && lines != [] && Balanced(lines)
    ensures var db1 := Apply(db, GeneratedDraft(k, lines)).0;
            && db1 == AddEntry(db, DraftEntry(k.entity, k.book, k.period, NextVoucherNo(db, k), None, lines))
            && PostsDraft(db1, Post(k.entity, |db.entries|))
  {
  }

  lemma OnlyPostsAndVoidsBreak(db: DB, req: Request, k: PeriodKey)
    requires !req.Post? && !req.Void?
    ensures !Breaks(db, req, k)
  {
  }

  /** Posting a draft without a source breaks it exactly if the draft books VAT. */
  lemma SourcelessPostBreaks(db: DB, req: Request, k: PeriodKey)
    requires PostsDraft(db, req) && KeyOf(db.entries[req.id]) == k && db.entries[req.id].source.None?
    ensures Breaks(db, req, k)
            <==> !(Balance.Net(db.entries[req.id].lines, INPUT_TAX) == 0
                   == Balance.Net(db.entries[req.id].lines, OUTPUT_TAX))
  {
  }

  /** A typed draft breaks it when posted, in every open period that takes it, exactly if it books VAT. */
  lemma TypedDraftAgreesExactly(db: DB, k: PeriodKey, lines: seq<Line>)
    requires OpenFor(db, k) && !Jammed(db, k) && lines != [] && Balanced(lines) && Agrees(db, k)
    ensures Agrees(ApplyAll(db, [GeneratedDraft(k, lines), Post(k.entity, |db.entries|)]), k)
            <==> Balance.Net(lines, INPUT_TAX) == 0 == Balance.Net(lines, OUTPUT_TAX)
  {
    var db1, post := Apply(db, GeneratedDraft(k, lines)).0, Post(k.entity, |db.entries|);
    TypedDraftLands(db, k, lines);
    OnlyPostsAndVoidsBreak(db, GeneratedDraft(k, lines), k);
    CallAgreesExactly(db, GeneratedDraft(k, lines), k);
    SourcelessPostBreaks(db1, post, k);
    CallAgreesExactly(db1, post, k);
    TwoCalls(db, GeneratedDraft(k, lines), post);
  }

  lemma TwoCalls(db: DB, first: Request, second: Request)
    ensures ApplyAll(db, [first, second]) == Apply(Apply(db, first).0, second).0
  {
    assert [first, second][..1] == [first] && [first][..0] == [];
    assert ApplyAll(db, [first][..0]) == db;
    assert ApplyAll(db, [first]) == Apply(db, first).0;
  }

  /** Such as a cent of input tax claimed without an invoice. */
  lemma TypedVatBreaks(db: DB, k: PeriodKey)
    requires OpenFor(db, k) && !Jammed(db, k) && Agrees(db, k)
    ensures var lines := [Line(INPUT_TAX.0, INPUT_TAX.1, DEBIT, 1, 0), Line("1002", "", CREDIT, 0, 1)];
            !Agrees(ApplyAll(db, [GeneratedDraft(k, lines), Post(k.entity, |db.entries|)]), k)
  {
    var tax, bank := Line(INPUT_TAX.0, INPUT_TAX.1, DEBIT, 1, 0), Line("1002", "", CREDIT, 0, 1);
    assert [tax, bank] == [tax] + [bank];
    BalancedConcat([tax], [bank]);
    SumSingle(tax, LineDebit);
    SumSingle(tax, LineCredit);
    SumSingle(bank, LineDebit);
    SumSingle(bank, LineCredit);
    SumOfConcat([tax], [bank], AccountOf, INPUT_TAX, LineNet);
    SumOfSingle(tax, AccountOf, INPUT_TAX, LineNet);
    SumOfSingle(bank, AccountOf, INPUT_TAX, LineNet);
    TaxAccountsDiffer();
    TypedDraftAgreesExactly(db, k, [tax, bank]);
  }

  // ---- Requests that break nothing, whatever the state ----

  predicate OffTax(lines: seq<Line>) {
    Balance.Net(lines, INPUT_TAX) == 0 == Balance.Net(lines, OUTPUT_TAX)
  }

  predicate KeepsVat(req: Request) {
    match req
    case CreateDraft(_, _, _, _, source, lines) => source.None? && OffTax(lines)
    case CreateInvoice(inv, _, _) => KeepsNetOffTax(inv)
    case Void(_, _) => false
    case _ => true
  }

  /** An entry with a source is the draft of that invoice, and waits for it if it is still a draft. */
  predicate Booked(db: DB, e: Entry) {
    match e.source
    case None => OffTax(e.lines)
    case Some(i) =>
      && i < |db.invoices|
      && e.lines == InvoiceLines(db.invoices[i]) && KeyOf(e) == InvoiceKey(db.invoices[i])
      && e.entity == db.invoices[i].entity
      && (db.invoices[i].status == Approved || (db.invoices[i].status == InvoicePosted && e.status != Draft))
  }

  ghost predicate AllBooked(db: DB) {
    && (forall id :: 0 <= id < |db.entries| ==> Booked(db, db.entries[id]))
    && (forall a, b :: 0 <= a < b < |db.entries| && db.entries[a].source.Some?
                       ==> db.entries[a].source != db.entries[b].source)
    && (forall i :: 0 <= i < |db.invoices| ==> KeepsNetOffTax(db.invoices[i]))
  }

  lemma BookedNeverBreaks(db: DB, req: Request, k: PeriodKey)
    requires KeepsVat(req) && AllBooked(db)
    ensures !Breaks(db, req, k)
  {
    if PostsDraft(db, req) {
      var e := db.entries[req.id];
      assert Booked(db, e);
      if e.source.Some? {
        DraftBooksVat(db.invoices[e.source.value]);
      }
    }
  }

  lemma PostKeepsBooked(db: DB, entity: string, id: Id)
    requires AllBooked(db)
    ensures AllBooked(PostCall(db, entity, id).0)
  {
    var db' := PostCall(db, entity, id).0;
    PostTouches(db, entity, id);
    PostMarks(db, entity, id);
    forall x | 0 <= x < |db'.entries| ensures Booked(db', db'.entries[x]) {
      assert Booked(db, db.entries[x]);
    }
  }

  lemma ApprovedIsBooked(db: DB, db': DB, id: Id, e: Entry)
    requires AllBooked(db) && InvoiceAt(db, id, Pending)
    requires db'.invoices == db.invoices[id := db.invoices[id].(status := Approved)]
    requires db'.entries == db.entries + [e] && e.source == Some(id) && e.lines == InvoiceLines(db.invoices[id])
    requires KeyOf(e) == InvoiceKey(db.invoices[id])
    ensures AllBooked(db')
  {
    forall x | 0 <= x < |db'.entries| ensures Booked(db', db'.entries[x]) {
      if x < |db.entries| {
        assert Booked(db, db.entries[x]);
      }
    }
    forall x | 0 <= x < |db.entries| ensures db.entries[x].source != Some(id) {
      assert Booked(db, db.entries[x]);
    }
  }

  lemma ApproveKeepsBooked(db: DB, entity: string, id: Id)
    requires AllBooked(db)
    ensures AllBooked(ApproveCall(db, entity, id).0)
  {
    var db' := ApproveCall(db, entity, id).0;
    ApproveTouches(db, entity, id);
    if db' != db {
      ApprovedIsBooked(db, db', id, db'.entries[|db.entries|]);
    }
  }

  lemma OffTaxIsBooked(db: DB, e: Entry)
    requires AllBooked(db) && e.source.None? && OffTax(e.lines)
    ensures AllBooked(AddEntry(db, e))
  {
    var db' := AddEntry(db, e);
    forall x | 0 <= x < |db'.entries| ensures Booked(db', db'.entries[x]) {
      if x < |db.entries| {
        assert Booked(db, db.entries[x]);
      }
    }
  }

  /** Voided rows, rejected invoices and new invoices leave every draft with the invoice it waits for. */
  lemma RowsStayBooked(db: DB, db': DB)
    requires AllBooked(db) && |db'.entries| == |db.entries| && |db.invoices| <= |db'.invoices|
    requires forall x :: 0 <= x < |db.entries| ==>
               db'.entries[x] == db.entries[x] || db'.entries[x] == db.entries[x].(status := Voided)
    requires forall i :: 0 <= i < |db.invoices| ==>
               db'.invoices[i] == db.invoices[i]
               || (db.invoices[i].status == Pending && db'.invoices[i] == db.invoices[i].(status := Rejected))
    requires forall i :: |db.invoices| <= i < |db'.invoices| ==> KeepsNetOffTax(db'.invoices[i])
    ensures AllBooked(db')
  {
    forall x | 0 <= x < |db'.entries| ensures Booked(db', db'.entries[x]) {
      assert Booked(db, db.entries[x]);
    }
  }

  lemma RequestKeepsBooked(db: DB, req: Request)
    requires KeepsVat(req) && AllBooked(db)
    ensures AllBooked(Apply(db, req).0)
  {
    match req
    case CreateDraft(_, _, _, _, _, _) =>
      CreateAddsDraft(db, req);
      if Apply(db, req).0 != db { OffTaxIsBooked(db, Apply(db, req).0.entries[|db.entries|]); }
    case UpdateDraft(entity, id, source, lines) =>
      UpdateDraftNeverSucceeds(db, entity, id, source, lines);
      RowsStayBooked(db, Apply(db, req).0);
    case Post(entity, id) => PostKeepsBooked(db, entity, id);
    case Void(_, _) =>
    case Approve(entity, id) => ApproveKeepsBooked(db, entity, id);
    case CreateInvoice(_, _, _) | Reject(_, _) | OpenPeriod(_) | Close(_) | Reopen(_) | Lock(_) =>
      RowsStayBooked(db, Apply(db, req).0);
  }

  /**
   So over any history without voids, in which no typed draft books VAT or names an invoice and no invoice has a
   tax account as its expense account, they agree throughout, whatever the state in which each call arrives.
   */
  lemma {:induction false} HistoryBooksVat(periods: map<PeriodKey, PeriodStatus>, history: seq<Request>, k: PeriodKey)
    requires forall req | req in history :: KeepsVat(req)
    ensures var db := ApplyAll(DB([], [], periods), history); AllBooked(db) && Agrees(db, k)
  {
    if history != [] {
      var n := |history| - 1;
      var before := ApplyAll(DB([], [], periods), history[..n]);
      HistoryBooksVat(periods, history[..n], k);
      BookedNeverBreaks(before, history[n], k);
      CallAgreesExactly(before, history[n], k);
      RequestKeepsBooked(before, history[n]);
    }
  }
}
