/**
 What each call answers and what it leaves in the tables, read off the tables alone: for every state, which inputs
 are refused and why, and the one row that the others add or change.
 */
module Answers {
  import opened Prelude
  import opened Ledger
  import opened Phases
  import opened Vouchers
  import opened Transitions
  import opened Bookings
  import Balance

  // ---- Periods ----

  predicate Shut(db: DB, k: PeriodKey) { k in db.periods && db.periods[k] in { Closed, Locked } }

  /** Nothing but the status of period k is new. */
  ghost predicate PeriodIs(db: DB, db': DB, k: PeriodKey, status: PeriodStatus) {
    && db'.entries == db.entries && db'.invoices == db.invoices
    && k in db'.periods && db'.periods[k] == status
    && (forall j :: j != k ==> (j in db'.periods <==> j in db.periods))
    && (forall j :: j != k && j in db.periods ==> db'.periods[j] == db.periods[j])
  }

  /** A closed period of a named book can be reopened, and then it is open; nothing else can. */
  lemma ReopenAnswers(db: DB, k: PeriodKey)
    ensures var (db', reply) := Apply(db, Reopen(k));
            && (reply.Ok? <==> k.book != "" && k in db.periods && db.periods[k] == Closed)
            && (reply.Ok? ==> PeriodIs(db, db', k, Open))
            && (reply.Err? ==> db' == db && reply == Err(if k.book == "" then InvalidRequest else NotFound))
  {
  }

  /** Likewise it can be locked, and then it is locked. */
  lemma LockAnswers(db: DB, k: PeriodKey)
    ensures var (db', reply) := Apply(db, Lock(k));
            && (reply.Ok? <==> k.book != "" && k in db.periods && db.periods[k] == Closed)
            && (reply.Ok? ==> PeriodIs(db, db', k, Locked))
            && (reply.Err? ==> db' == db && reply == Err(if k.book == "" then InvalidRequest else NotFound))
  {
  }

  lemma OpenAnswers(db: DB, k: PeriodKey)
    ensures var (db', reply) := Apply(db, OpenPeriod(k));
            && reply == Ok(0)
            && if k in db.periods then db' == db else PeriodIs(db, db', k, Open)
  {
  }

  /** An invoice or entry belongs to the months that closing k looks at: all of the book if k names no month. */
  predicate InMonths(k: PeriodKey, entity: string, book: string, period: string) {
    entity == k.entity && (k.book == "" || book == k.book) && (k.period == "" || period == k.period)
  }

  ghost predicate NothingOpen(db: DB, k: PeriodKey) {
    && (forall inv | inv in db.invoices && InMonths(k, inv.entity, inv.book, inv.period) :: inv.status != Pending)
    && (forall e | e in db.entries && InMonths(k, e.entity, e.book, e.period) :: e.status != Draft)
  }

  /** An open period closes if no work is left in it and its posted lines balance; otherwise it stays open. */
  lemma CloseAnswers(db: DB, k: PeriodKey)
    ensures var (db', reply) := Apply(db, Close(k));
            var open := k in db.periods && db.periods[k] == Open;
            var posted := PostedLines(db.entries, k);
            && (reply.Ok? <==> k.book != "" && open && NothingOpen(db, k) && Debits(posted) == Credits(posted))
            && (reply.Ok? ==> PeriodIs(db, db', k, Closed))
            && (reply.Err? ==> db' == db && reply == Err(if k.book == "" then InvalidRequest
                                                         else if !open then NotFound else CheckFailed))
  {
    NothingOpenIs(db, k);
    if k in db.periods && db.periods[k] == Open {
      assert db.periods[k := Closing][k := Open] == db.periods;
    }
  }

  lemma NothingOpenIs(db: DB, k: PeriodKey)
    ensures NothingOpen(db, k) <==> !HasPendingInvoice(db, k) && !HasDraft(db, k)
  {
    if i :| 0 <= i < |db.invoices| && IsPending(db.invoices[i], k) {
      assert db.invoices[i] in db.invoices;
    }
    if i :| 0 <= i < |db.entries| && IsDraft(db.entries[i], k) {
      assert db.entries[i] in db.entries;
    }
  }

  /** Closing and reopening gives the tables back exactly. */
  lemma CloseThenReopen(db: DB, k: PeriodKey)
    requires Apply(db, Close(k)).1.Ok?
    ensures Apply(Apply(db, Close(k)).0, Reopen(k)) == (db, Ok(0))
  {
    CloseAnswers(db, k);
    assert db.periods[k := Closing][k := Closed][k := Open] == db.periods;
  }

  predicate Month(year: string, month: string) {
    && |year| == 4 && |month| == 2 && (forall c | c in year + month :: '0' <= c <= '9') && 1 <= Value(month) <= 12
  }

  /** A period is named by a year of four digits, a dash, and a month from 01 to 12. */
  lemma PeriodNames(p: string)
    ensures ValidPeriod(p) <==> exists year, month :: Month(year, month) && p == year + "-" + month
  {
    if ValidPeriod(p) {
      var year, month := p[..4], p[5..];
      assert p == year + "-" + month;
      MonthValue(month);
      assert Month(year, month);
    }
    if year, month :| Month(year, month) && p == year + "-" + month {
      MonthValue(month);
      assert forall c | c in year + month :: IsDigit(c);
      assert p[0] == (year + month)[0] && p[1] == (year + month)[1] && p[2] == (year + month)[2];
      assert p[3] == (year + month)[3] && p[5] == (year + month)[4] && p[6] == (year + month)[5];
    }
  }

  lemma MonthValue(month: string)
    requires |month| == 2
    ensures Value(month) == (month[0] as int - '0' as int) * 10 + (month[1] as int - '0' as int)
  {
    assert month[..1][..0] == "" && month[..1][0] == month[0];
    assert Value(month[..1]) == month[0] as int - '0' as int;
  }

  // ---- Periods under requests that overlap ----

  /** The moves a period can make, and the task that makes each. */
  predicate PeriodMove(t: Task, k: PeriodKey, before: Option<PeriodStatus>, after: Option<PeriodStatus>) {
    || after == before
    || (before == None && after == Some(Open) && t == Start(OpenPeriod(k)))
    || (before == Some(Open) && after == Some(Closing) && t == Start(Close(k)) && k.book != "")
    || (before == Some(Closing) && after == Some(Closed) && t == CloseFinish(k, true))
    || (before == Some(Closing) && after == Some(Open) && t == CloseFinish(k, false))
    || (before == Some(Closed) && after == Some(Open) && t == Start(Reopen(k)) && k.book != "")
    || (before == Some(Closed) && after == Some(Locked) && t == Start(Lock(k)) && k.book != "")
  }

  function StatusOf(db: DB, k: PeriodKey): Option<PeriodStatus> {
    if k in db.periods then Some(db.periods[k]) else None
  }

  /** The task's next step would move period k. */
  predicate MovesPeriod(db: DB, t: Task, k: PeriodKey) {
    match t
    case Start(OpenPeriod(j)) => j == k && k !in db.periods
    case Start(Close(j)) => j == k && k.book != "" && StatusOf(db, k) == Some(Open)
    case Start(Reopen(j)) => j == k && k.book != "" && StatusOf(db, k) == Some(Closed)
    case Start(Lock(j)) => j == k && k.book != "" && StatusOf(db, k) == Some(Closed)
    case CloseFinish(j, _) => j == k && StatusOf(db, k) == Some(Closing)
    case _ => false
  }

  lemma BeginMovesPeriods(db: DB, req: Request, k: PeriodKey)
    ensures PeriodMove(Start(req), k, StatusOf(db, k), StatusOf(Begin(db, req).0, k))
    ensures StatusOf(Begin(db, req).0, k) != StatusOf(db, k) <==> MovesPeriod(db, Start(req), k)
  {
  }

  /** Under any interleaving a period's status makes these moves only, and makes them whenever the task is there. */
  lemma StepMovesPeriods(db: DB, t: Task, k: PeriodKey)
    ensures PeriodMove(t, k, StatusOf(db, k), StatusOf(Advance(db, t).0, k))
    ensures StatusOf(Advance(db, t).0, k) != StatusOf(db, k) <==> MovesPeriod(db, t, k)
  {
    if t.Start? {
      BeginMovesPeriods(db, t.req, k);
    } else if t.UpdateVoid? || t.VoidPlain? {
      VoidSteps(db, t);
    } else if t.PostCommit? {
      PostStep(db, t);
    } else if t.ReverseCommit? {
      ReverseStep(db, t);
    } else if t.ApproveCommit? {
      ApproveStep(db, t);
    }
  }

  /** A locked period stays locked whatever overlaps. */
  lemma {:induction false} LockedStays(s: System, run: seq<Event>, k: PeriodKey)
    requires StatusOf(s.db, k) == Some(Locked)
    ensures StatusOf(Exec(s, run).db, k) == Some(Locked)
  {
    if run != [] {
      var n := |run| - 1;
      LockedStays(s, run[..n], k);
      var mid := Exec(s, run[..n]);
      if run[n].Turn? && run[n].i < |mid.tasks| {
        StepMovesPeriods(mid.db, mid.tasks[run[n].i], k);
      }
    }
  }

  // ---- Invoices ----

  /** Nothing but invoice id is new, which now has this status. */
  predicate InvoiceIs(db: DB, db': DB, id: Id, status: InvoiceStatus) {
    && db'.entries == db.entries && db'.periods == db.periods
    && |db'.invoices| == |db.invoices| && id < |db.invoices|
    && (forall i :: 0 <= i < |db.invoices| && i != id ==> db'.invoices[i] == db.invoices[i])
    && db'.invoices[id] == db.invoices[id].(status := status)
  }

  /** Exactly a pending invoice of the entity can be rejected. */
  lemma RejectAnswers(db: DB, entity: string, id: Id)
    ensures var (db', reply) := Apply(db, Reject(entity, id));
            && (reply.Ok? <==> InvoiceAt(db, id, Pending) && db.invoices[id].entity == entity)
            && (reply.Ok? ==> reply == Ok(id) && InvoiceIs(db, db', id, Rejected))
            && (reply.Err? ==> reply == Err(WrongStatus) && db' == db)
  {
  }

  /** It stays rejected whatever overlaps: it is never approved, posted, or pending again. */
  lemma {:induction false} RejectedStays(s: System, run: seq<Event>, id: Id)
    requires InvoiceAt(s.db, id, Rejected)
    ensures InvoiceAt(Exec(s, run).db, id, Rejected)
  {
    if run != [] {
      var n := |run| - 1;
      RejectedStays(s, run[..n], id);
      var mid := Exec(s, run[..n]);
      if run[n].Turn? && run[n].i < |mid.tasks| {
        StepMovesInvoices(mid.db, mid.tasks[run[n].i]);
      }
    }
  }

  /** Two cents of difference between net plus tax and gross are let through, and directions by name or none. */
  predicate Acceptable(inv: Invoice, wellFormed: bool) {
    && wellFormed && inv.invoiceNo != "" && inv.direction in { "", "input", "output" }
    && -2 <= inv.gross - inv.net - inv.tax <= 2
  }

  predicate NumberUsed(db: DB, inv: Invoice, i: nat) {
    && i < |db.invoices| && db.invoices[i].entity == inv.entity && db.invoices[i].book == inv.book
    && db.invoices[i].invoiceNo == inv.invoiceNo
  }

  /** An invoice is refused, found again under its number, or added as it is, pending. */
  lemma CreateInvoiceAnswers(db: DB, inv: Invoice, datePeriod: string, wellFormed: bool)
    ensures var (db', reply) := Apply(db, CreateInvoice(inv, datePeriod, wellFormed));
            var closed := inv.book != "" && Shut(db, PeriodKey(inv.entity, inv.book, datePeriod));
            && (reply == Err(InvalidRequest) <==> !Acceptable(inv, wellFormed))
            && (reply == Err(PeriodClosed) <==> Acceptable(inv, wellFormed) && closed)
            && (reply.Ok? <==> Acceptable(inv, wellFormed) && !closed)
            && (reply.Ok? && (exists i :: NumberUsed(db, inv, i)) ==> NumberUsed(db, inv, reply.id))
            && (if reply.Ok? && !exists i :: NumberUsed(db, inv, i)
                then reply == Ok(|db.invoices|)
                     && db' == DB(db.entries, db.invoices + [inv.(status := Pending)], db.periods)
                else db' == db)
  {
    var found := FindByInvoiceNo(db.invoices, inv.entity, inv.book, inv.invoiceNo);
    if found.Some? {
      assert NumberUsed(db, inv, found.value);
    } else {
      forall i: nat ensures !NumberUsed(db, inv, i) {
        if i < |db.invoices| {
          assert !SameInvoiceNo(db.invoices[i], inv.entity, inv.book, inv.invoiceNo);
        }
      }
    }
  }

  /** The last entry is the unposted draft of the invoice: in its period, from it, under this number, booked as it. */
  ghost predicate AddsDraftOf(db: DB, db': DB, id: Id, voucherNo: string)
    requires id < |db.invoices|
  {
    && |db'.entries| == |db.entries| + 1 && db'.entries[..|db.entries|] == db.entries
    && var inv, e := db.invoices[id], db'.entries[|db.entries|];
       && e.entity == inv.entity && e.book == inv.book && e.period == inv.period
       && e.source == Some(id) && e.status == Draft && e.voucherNo == voucherNo
       && BooksInvoice(e.lines, inv)
  }

  predicate Sound(inv: Invoice) { inv.net >= 0 && inv.tax >= 0 && inv.net + inv.tax == inv.gross }

  /** Why an approval is refused. */
  function ApproveRefusal(db: DB, entity: string, id: Id): Option<Error> {
    if id >= |db.invoices| || db.invoices[id].entity != entity then Some(NotFound)
    else
      var inv := db.invoices[id];
      var k := PeriodKey(inv.entity, inv.book, inv.period);
      if Shut(db, k) then Some(PeriodClosed)
      else if inv.status != Pending then Some(WrongStatus)
      else if !Sound(inv) then Some(InvalidRequest)
      else if Jammed(db, k) then Some(Duplicate)
      else None
  }

  /** Otherwise the invoice becomes approved and its draft, booked on the right accounts, is added. */
  lemma ApproveAnswers(db: DB, entity: string, id: Id)
    ensures var (db', reply) := Apply(db, Approve(entity, id));
            match ApproveRefusal(db, entity, id)
            case Some(error) => reply == Err(error) && db' == db
            case None =>
              && reply == Ok(id) && db'.periods == db.periods
              && InvoiceIs(db, db'.(entries := db.entries), id, Approved)
              && AddsDraftOf(db, db', id, NextVoucherNo(db, InvoiceKey(db.invoices[id])))
  {
    if ApproveRefusal(db, entity, id).None? {
      Balance.InvoiceLinesBalance(db.invoices[id]);
      DraftBooksInvoice(db.invoices[id]);
    } else if id < |db.invoices| {
      Balance.InvoiceLinesBalance(db.invoices[id]);
    }
  }

  // ---- Entries ----

  /** Nothing but entry id is new, which now has this status. */
  predicate EntryIs(db: DB, db': DB, id: Id, status: EntryStatus) {
    && db'.periods == db.periods && |db'.entries| == |db.entries| && id < |db.entries|
    && (forall i :: 0 <= i < |db.entries| && i != id ==> db'.entries[i] == db.entries[i])
    && db'.entries[id] == db.entries[id].(status := status)
  }

  /** Why a draft is refused. */
  function DraftRefusal(db: DB, k: PeriodKey, voucherNo: string, lines: seq<Line>): Option<Error> {
    if lines == [] || (k.period != "" && !ValidPeriod(k.period)) then Some(InvalidRequest)
    else if Shut(db, k) then Some(PeriodClosed)
    else if Debits(lines) != Credits(lines) then Some(InvalidRequest)
    else if VoucherTaken(db.entries, k, voucherNo) then Some(Duplicate)
    else None
  }

  function NumberFor(db: DB, k: PeriodKey, voucherNo: string): string {
    if voucherNo == "" then VoucherNo(k.period, CountKey(db.entries, k) + 1) else voucherNo
  }

  lemma DraftIsRefused(db: DB, k: PeriodKey, voucherNo: string, source: Option<Id>, lines: seq<Line>)
    requires DraftRefusal(db, k, NumberFor(db, k, voucherNo), lines).Some?
    ensures Apply(db, CreateDraft(k.entity, k.book, k.period, voucherNo, source, lines))
            == (db, Err(DraftRefusal(db, k, NumberFor(db, k, voucherNo), lines).value))
  {
  }

  /** Otherwise it is added as it was sent, under its own number or the next one. */
  lemma CreateDraftAnswers(db: DB, k: PeriodKey, voucherNo: string, source: Option<Id>, lines: seq<Line>)
    ensures var (db', reply) := Apply(db, CreateDraft(k.entity, k.book, k.period, voucherNo, source, lines));
            var v := NumberFor(db, k, voucherNo);
            match DraftRefusal(db, k, v, lines)
            case Some(error) => reply == Err(error) && db' == db
            case None =>
              && reply == Ok(|db.entries|)
              && db' == DB(db.entries + [Entry(k.entity, k.book, k.period, v, source, Draft, lines)],
                           db.invoices, db.periods)
  {
    if DraftRefusal(db, k, NumberFor(db, k, voucherNo), lines).Some? {
      DraftIsRefused(db, k, voucherNo, source, lines);
    }
  }

  lemma DraftIsAnswered(db: DB, k: PeriodKey, voucherNo: string, source: Option<Id>, lines: seq<Line>)
    ensures var reply := Apply(db, CreateDraft(k.entity, k.book, k.period, voucherNo, source, lines)).1;
            var refusal := DraftRefusal(db, k, NumberFor(db, k, voucherNo), lines);
            reply == if refusal.Some? then Err(refusal.value) else Ok(|db.entries|)
  {
    CreateDraftAnswers(db, k, voucherNo, source, lines);
  }

  /** What a closed period refused, it takes once it is reopened, if it is a sound draft under a free number. */
  lemma ReopenAdmits(db: DB, k: PeriodKey, voucherNo: string, source: Option<Id>, lines: seq<Line>)
    requires Apply(db, Reopen(k)).1.Ok?
    ensures var req := CreateDraft(k.entity, k.book, k.period, voucherNo, source, lines);
            && !Apply(db, req).1.Ok?
            && (Apply(Apply(db, Reopen(k)).0, req).1.Ok?
                <==> && Apply(db, req).1 == Err(PeriodClosed) && Debits(lines) == Credits(lines)
                     && !VoucherTaken(db.entries, k, NumberFor(db, k, voucherNo)))
  {
    ReopenAnswers(db, k);
    DraftIsAnswered(db, k, voucherNo, source, lines);
    DraftIsAnswered(Apply(db, Reopen(k)).0, k, voucherNo, source, lines);
  }

  /** An update is refused in any case; what it is refused for, and that a draft is voided all the same. */
  lemma UpdateAnswers(db: DB, entity: string, id: Id, source: Option<Id>, lines: seq<Line>)
    ensures var (db', reply) := Apply(db, UpdateDraft(entity, id, source, lines));
            if id >= |db.entries| || db.entries[id].entity != entity then reply == Err(NotFound) && db' == db
            else if db.entries[id].status != Draft then reply == Err(WrongStatus) && db' == db
            else
              && EntryIs(db, db', id, Voided) && db'.invoices == db.invoices
              && reply == Err(if Debits(lines) == Credits(lines) then Duplicate else InvalidRequest)
  {
    UpdateDraftNeverSucceeds(db, entity, id, source, lines);
  }

  /** Why a post is refused. */
  function PostRefusal(db: DB, entity: string, id: Id): Option<Error> {
    if id >= |db.entries| || db.entries[id].entity != entity then Some(NotFound)
    else
      var e := db.entries[id];
      if Shut(db, PeriodKey(e.entity, e.book, e.period)) then Some(PeriodClosed)
      else if e.status == Posted then None
      else if e.lines == [] || Debits(e.lines) != Credits(e.lines) then Some(InvalidRequest)
      else if e.status == Voided then Some(WrongStatus)
      else None
  }

  /** Otherwise the entry is posted, if it was not yet, and with it the approved invoice of the entity it came from. */
  lemma PostAnswers(db: DB, entity: string, id: Id)
    ensures var (db', reply) := Apply(db, Post(entity, id));
            match PostRefusal(db, entity, id)
            case Some(error) => reply == Err(error) && db' == db
            case None =>
              reply == Ok(id)
              && var e := db.entries[id];
                 if e.status == Posted then db' == db
                 else
                   && EntryIs(db, db', id, Posted)
                   && (if e.source.Some? && InvoiceAt(db, e.source.value, Approved)
                          && db.invoices[e.source.value].entity == entity
                       then InvoiceIs(db, db'.(entries := db.entries), e.source.value, InvoicePosted)
                       else db'.invoices == db.invoices)
  {
  }

  /** Why a void is refused. */
  function VoidRefusal(db: DB, entity: string, id: Id): Option<Error> {
    if id >= |db.entries| || db.entries[id].entity != entity then Some(NotFound)
    else
      var e := db.entries[id];
      var k := PeriodKey(e.entity, e.book, e.period);
      if Shut(db, k) then Some(PeriodClosed)
      else if e.status == Voided then Some(NotFound)
      else if e.status == Posted && Jammed(db, k) then Some(Duplicate)
      else None
  }

  /** A line with its two columns exchanged, and the direction with them. */
  predicate Turned(l: Line, m: Line) {
    && m.code == l.code && m.name == l.name && m.debit == l.credit && m.credit == l.debit
    && m.direction == if l.direction == "debit" then "credit" else "debit"
  }

  /** The last entry is the posted reversal of e under the next number. */
  predicate AddsReversalOf(db: DB, db': DB, e: Entry) {
    && |db'.entries| == |db.entries| + 1
    && var rev := db'.entries[|db.entries|];
       && rev.entity == e.entity && rev.book == e.book && rev.period == e.period && rev.source == e.source
       && rev.status == Posted && rev.voucherNo == NextVoucherNo(db, KeyOf(e))
       && |rev.lines| == |e.lines| && forall i :: 0 <= i < |e.lines| ==> Turned(e.lines[i], rev.lines[i])
  }

  /** Otherwise the entry is voided; if it was posted, its reversal is posted with it. */
  lemma VoidAnswers(db: DB, entity: string, id: Id)
    ensures var (db', reply) := Apply(db, Void(entity, id));
            match VoidRefusal(db, entity, id)
            case Some(error) => reply == Err(error) && db' == db
            case None =>
              && reply == Ok(id) && db'.invoices == db.invoices && |db.entries| <= |db'.entries|
              && EntryIs(db, db'.(entries := db'.entries[..|db.entries|]), id, Voided)
              && if db.entries[id].status == Posted then AddsReversalOf(db, db', db.entries[id])
                 else |db'.entries| == |db.entries|
  {
  }

  // ---- A month from end to end ----

  /** A sound new invoice of a period that is open and has a next number. */
  ghost predicate CanGoThrough(db: DB, inv: Invoice, datePeriod: string) {
    && Acceptable(inv, true) && Sound(inv) && (forall i :: !NumberUsed(db, inv, i))
    && !Shut(db, PeriodKey(inv.entity, inv.book, datePeriod)) && !Shut(db, InvoiceKey(inv))
    && !Jammed(db, InvoiceKey(inv))
  }

  function CreatedOf(db: DB, inv: Invoice): DB {
    DB(db.entries, db.invoices + [inv.(status := Pending)], db.periods)
  }

  function DraftOf(db: DB, inv: Invoice): Entry {
    InvoiceDraft(inv, |db.invoices|, NextVoucherNo(db, InvoiceKey(inv)))
  }

  function ApprovedOf(db: DB, inv: Invoice): DB {
    DB(db.entries + [DraftOf(db, inv)], db.invoices + [inv.(status := Approved)], db.periods)
  }

  lemma NewInvoiceIsCreated(db: DB, inv: Invoice, datePeriod: string)
    requires CanGoThrough(db, inv, datePeriod)
    ensures Apply(db, CreateInvoice(inv, datePeriod, true)) == (CreatedOf(db, inv), Ok(|db.invoices|))
  {
    CreateInvoiceAnswers(db, inv, datePeriod, true);
  }

  lemma NewInvoiceIsApproved(db: DB, inv: Invoice)
    requires Sound(inv) && !Shut(db, InvoiceKey(inv)) && !Jammed(db, InvoiceKey(inv))
    ensures Apply(CreatedOf(db, inv), Approve(inv.entity, |db.invoices|)) == (ApprovedOf(db, inv), Ok(|db.invoices|))
  {
    var id := |db.invoices|;
    var invs := CreatedOf(db, inv).invoices;
    Balance.InvoiceLinesBalance(invs[id]);
    assert invs[id := invs[id].(status := Approved)] == ApprovedOf(db, inv).invoices;
    assert InvoiceDraft(invs[id], id, NextVoucherNo(CreatedOf(db, inv), InvoiceKey(inv))) == DraftOf(db, inv);
  }

  lemma NewDraftIsPosted(db: DB, inv: Invoice)
    requires Sound(inv) && !Shut(db, InvoiceKey(inv))
    ensures Apply(ApprovedOf(db, inv), Post(inv.entity, |db.entries|))
            == (DB(db.entries + [DraftOf(db, inv).(status := Posted)],
                   db.invoices + [inv.(status := InvoicePosted)], db.periods), Ok(|db.entries|))
  {
    var before := ApprovedOf(db, inv);
    Balance.InvoiceLinesBalance(inv);
    assert before.entries[|db.entries|] == DraftOf(db, inv) && before.invoices[|db.invoices|].entity == inv.entity;
    assert before.entries[|db.entries| := DraftOf(db, inv).(status := Posted)]
        == db.entries + [DraftOf(db, inv).(status := Posted)];
    assert before.invoices[|db.invoices| := inv.(status := InvoicePosted)]
        == db.invoices + [inv.(status := InvoicePosted)];
  }

  /**
   Such an invoice goes through: created, approved and posted it ends as one posted invoice row and one posted entry
   that books it, beside everything that was there.
   */
  lemma InvoiceGoesThrough(db: DB, inv: Invoice, datePeriod: string) returns (e: Entry)
    requires CanGoThrough(db, inv, datePeriod)
    ensures var (db1, r1) := Apply(db, CreateInvoice(inv, datePeriod, true));
            var (db2, r2) := Apply(db1, Approve(inv.entity, |db.invoices|));
            var (db3, r3) := Apply(db2, Post(inv.entity, |db.entries|));
            && r1 == r2 == Ok(|db.invoices|) && r3 == Ok(|db.entries|)
            && db3 == DB(db.entries + [e], db.invoices + [inv.(status := InvoicePosted)], db.periods)
    ensures e.status == Posted && e.entity == inv.entity && e.book == inv.book && e.period == inv.period
    ensures e.source == Some(|db.invoices|) && BooksInvoice(e.lines, inv)
  {
    NewInvoiceIsCreated(db, inv, datePeriod);
    NewInvoiceIsApproved(db, inv);
    NewDraftIsPosted(db, inv);
    DraftBooksInvoice(inv);
    e := DraftOf(db, inv).(status := Posted);
  }

  /** With no work left a month of balanced entries closes, and then locks. */
  lemma MonthCloses(db: DB, k: PeriodKey)
    requires k.book != "" && StatusOf(db, k) == Some(Open) && NothingOpen(db, k) && Balance.AllBalanced(db)
    ensures Apply(db, Close(k)) == (db.(periods := db.periods[k := Closed]), Ok(0))
    ensures Apply(db.(periods := db.periods[k := Closed]), Lock(k)) == (db.(periods := db.periods[k := Locked]), Ok(0))
  {
    Balance.PostedLinesBalance(db.entries, k);
    CloseAnswers(db, k);
    assert db.periods[k := Closing][k := Closed] == db.periods[k := Closed];
    assert db.periods[k := Closed][k := Locked] == db.periods[k := Locked];
  }
}
