/**
 The same service calls broken at every point where another request can get in between: each read of the
 tables, each statement outside a transaction, and each transaction are one step.  A Task is a request in
 flight together with what it has read so far.
 */
module Phases {
  import opened Prelude
  import opened Ledger

  datatype Task =
    | Start(req: Request)
    | DraftCheck(entry: Entry)
    | InsertHeader(entry: Entry)
    | InsertLines(id: Id, rest: seq<Line>)
    | UpdateVoid(entity: string, id: Id, seen: Entry, source: Option<Id>, lines: seq<Line>)
    | UpdateInsert(entry: Entry)
    | PostCheck(entity: string, id: Id, seen: Entry)
    | PostCommit(entity: string, id: Id)
    | VoidCheck(entity: string, id: Id, seen: Entry)
    | VoidPlain(entity: string, id: Id)
    | ReverseNumber(entity: string, id: Id, seen: Entry)
    | ReverseCommit(entity: string, id: Id, seen: Entry, voucherNo: string)
    | InvoiceFind(invoice: Invoice)
    | InvoiceInsert(invoice: Invoice)
    | ApproveCheck(entity: string, id: Id, key: PeriodKey)
    | ApproveNumber(entity: string, id: Id, key: PeriodKey)
    | ApproveCommit(entity: string, id: Id, voucherNo: string)
    | CloseChecking(key: PeriodKey)
    | CloseFinish(key: PeriodKey, passed: bool)
    | Done(reply: Reply)

  function Fail(db: DB, e: Error): (DB, Task) { (db, Done(Err(e))) }

  function Conclude(r: (DB, Reply)): (DB, Task) { (r.0, Done(r.1)) }

  function AppendLine(db: DB, id: Id, l: Line): DB
    requires id < |db.entries|
  {
    db.(entries := db.entries[id := db.entries[id].(lines := db.entries[id].lines + [l])])
  }

  /** Receive the request: the first read, and the calls that are a single statement. */
  function Begin(db: DB, req: Request): (DB, Task) {
    match req
    case CreateDraft(entity, book, period, voucherNo, source, lines) =>
      var v := if voucherNo == "" then NextVoucherNo(db, PeriodKey(entity, book, period)) else voucherNo;
      if lines == [] then Fail(db, InvalidRequest)
      else (db, DraftCheck(DraftEntry(entity, book, period, v, source, lines)))
    case UpdateDraft(entity, id, source, lines) =>
      (match FindEntry(db, entity, id)
       case None => Fail(db, NotFound)
       case Some(e) =>
         if e.status != Draft then Fail(db, WrongStatus) else (db, UpdateVoid(entity, id, e, source, lines)))
    case Post(entity, id) =>
      (match FindEntry(db, entity, id)
       case None => Fail(db, NotFound)
       case Some(e) => (db, PostCheck(entity, id, e)))
    case Void(entity, id) =>
      (match FindEntry(db, entity, id)
       case None => Fail(db, NotFound)
       case Some(e) => (db, VoidCheck(entity, id, e)))
    case CreateInvoice(inv, datePeriod, wellFormed) =>
      if !AcceptableInvoice(inv, wellFormed) then Fail(db, InvalidRequest)
      else if inv.book != "" && IsClosed(db, PeriodKey(inv.entity, inv.book, datePeriod)) then Fail(db, PeriodClosed)
      else (db, InvoiceFind(inv))
    case Approve(entity, id) =>
      (match FindInvoice(db, entity, id)
       case None => Fail(db, NotFound)
       case Some(inv) => (db, ApproveCheck(entity, id, InvoiceKey(inv))))
    case Reject(_, _) => Conclude(Apply(db, req))
    case OpenPeriod(_) => Conclude(Apply(db, req))
    case Close(k) =>
      if k.book == "" then Fail(db, InvalidRequest)
      else (match CasPeriod(db, k, Open, Closing)
            case None => Fail(db, NotFound)
            case Some(db') => (db', CloseChecking(k)))
    case Reopen(_) => Conclude(Apply(db, req))
    case Lock(_) => Conclude(Apply(db, req))
  }

  /** One step of one task. */
  function Advance(db: DB, t: Task): (DB, Task) {
    match t
    case Start(req) => Begin(db, req)
    case DraftCheck(e) =>
      if e.period != "" && !ValidPeriod(e.period) then Fail(db, InvalidRequest)
      else if IsClosed(db, KeyOf(e)) then Fail(db, PeriodClosed)
      else if !Balanced(e.lines) then Fail(db, InvalidRequest)
      else (db, InsertHeader(e))
    case InsertHeader(e) =>
      if VoucherTaken(db.entries, KeyOf(e), e.voucherNo) then Fail(db, Duplicate)
      else (AddEntry(db, e.(lines := [])), InsertLines(|db.entries|, e.lines))
    case InsertLines(id, rest) =>
      if rest == [] || id >= |db.entries| then (db, Done(Ok(id)))
      else (AppendLine(db, id, rest[0]), InsertLines(id, rest[1..]))
    case UpdateVoid(entity, id, seen, source, lines) =>
      (match CasVoid(db, entity, id)
       case None => Fail(db, NotFound)
       case Some(db') =>
         (db', UpdateInsert(DraftEntry(entity, seen.book, seen.period, seen.voucherNo, source, lines))))
    case UpdateInsert(e) =>
      if !Balanced(e.lines) then Fail(db, InvalidRequest) else (db, InsertHeader(e))
    case PostCheck(entity, id, seen) =>
      if IsClosed(db, KeyOf(seen)) then Fail(db, PeriodClosed)
      else if seen.status == Posted then (db, Done(Ok(id)))
      else if seen.lines == [] then Fail(db, InvalidRequest)
      else if !Balanced(seen.lines) then Fail(db, InvalidRequest)
      else (db, PostCommit(entity, id))
    case PostCommit(entity, id) =>
      (match CasPost(db, entity, id)
       case None => Fail(db, WrongStatus)
       case Some(db') => (db', Done(Ok(id))))
    case VoidCheck(entity, id, seen) =>
      if IsClosed(db, KeyOf(seen)) then Fail(db, PeriodClosed)
      else if seen.status != Posted then (db, VoidPlain(entity, id))
      else (db, ReverseNumber(entity, id, seen))
    case VoidPlain(entity, id) =>
      (match CasVoid(db, entity, id)
       case None => Fail(db, NotFound)
       case Some(db') => (db', Done(Ok(id))))
    case ReverseNumber(entity, id, seen) =>
      (db, ReverseCommit(entity, id, seen, NextVoucherNo(db, KeyOf(seen))))
    case ReverseCommit(entity, id, seen, voucherNo) =>
      Conclude(ReverseAndVoid(db, entity, id, seen, voucherNo))
    case InvoiceFind(inv) =>
      (match FindByInvoiceNo(db.invoices, inv.entity, inv.book, inv.invoiceNo)
       case Some(i) => (db, Done(Ok(i)))
       case None => (db, InvoiceInsert(inv)))
    case InvoiceInsert(inv) =>
      (match FindByInvoiceNo(db.invoices, inv.entity, inv.book, inv.invoiceNo)
       case Some(_) => Fail(db, Duplicate)
       case None => (db.(invoices := db.invoices + [inv.(status := Pending)]), Done(Ok(|db.invoices|))))
    case ApproveCheck(entity, id, key) =>
      if IsClosed(db, key) then Fail(db, PeriodClosed) else (db, ApproveNumber(entity, id, key))
    case ApproveNumber(entity, id, key) =>
      (db, ApproveCommit(entity, id, NextVoucherNo(db, key)))
    case ApproveCommit(entity, id, voucherNo) =>
      Conclude(ApproveAndDraft(db, entity, id, voucherNo))
    case CloseChecking(k) => (db, CloseFinish(k, CloseCheckPasses(db, k)))
    case CloseFinish(k, passed) =>
      (match CasPeriod(db, k, Closing, if passed then Closed else Open)
       case None => Fail(db, if passed then NotFound else CheckFailed)
       case Some(db') => (db', Done(if passed then Ok(0) else Err(CheckFailed))))
    case Done(_) => (db, t)
  }

  // ---- What a step can do to the journal ----

  /** The steps that write the journal table. */
  predicate WritesJournal(t: Task) {
    t.InsertHeader? || t.InsertLines? || t.UpdateVoid? || t.PostCommit? || t.VoidPlain? || t.ReverseCommit?
    || t.ApproveCommit?
  }

  lemma OtherStepsLeaveJournal(db: DB, t: Task)
    requires !WritesJournal(t)
    ensures Advance(db, t).0.entries == db.entries
  {
    if t.Start? {
      BeginLeavesJournal(db, t.req);
    }
  }

  lemma BeginLeavesJournal(db: DB, req: Request)
    ensures Begin(db, req).0.entries == db.entries
  {
  }

  predicate StatusSet(db: DB, db': DB, id: Id, status: EntryStatus) {
    id < |db.entries| && db'.entries == db.entries[id := db.entries[id].(status := status)]
  }

  lemma VoidSteps(db: DB, t: Task)
    requires t.UpdateVoid? || t.VoidPlain?
    ensures var db' := Advance(db, t).0;
            || db' == db
            || (StatusSet(db, db', t.id, Voided) && db.entries[t.id].status != Voided
                && db'.invoices == db.invoices && db'.periods == db.periods)
  {
  }

  lemma PostStep(db: DB, t: Task)
    requires t.PostCommit?
    ensures var db' := Advance(db, t).0;
            || db' == db
            || (StatusSet(db, db', t.id, Posted) && db.entries[t.id].status == Draft
                && db'.periods == db.periods)
  {
  }

  lemma ReverseStep(db: DB, t: Task)
    requires t.ReverseCommit?
    ensures var db' := Advance(db, t).0;
            var rev := Reversal(t.seen, t.voucherNo, Posted);
            || db' == db
            || (!VoucherTaken(db.entries, KeyOf(t.seen), t.voucherNo)
                && StatusSet(AddEntry(db, rev), db', t.id, Voided)
                && (db.entries + [rev])[t.id].status != Voided
                && (db.entries + [rev])[t.id].entity == t.entity
                && db'.invoices == db.invoices && db'.periods == db.periods)
  {
  }

  lemma ApproveStep(db: DB, t: Task)
    requires t.ApproveCommit?
    ensures var db' := Advance(db, t).0;
            || db' == db
            || (t.id < |db.invoices|
                && var inv := db.invoices[t.id];
                && inv.status == Pending && SoundAmounts(inv) && Balanced(InvoiceLines(inv))
                && !VoucherTaken(db.entries, InvoiceKey(inv), t.voucherNo)
                && db'.entries == db.entries + [InvoiceDraft(inv, t.id, t.voucherNo)]
                && db'.invoices == db.invoices[t.id := inv.(status := Approved)]
                && db'.periods == db.periods)
  {
  }

  // ---- Running one task alone ----

  function Stage(t: Task): nat {
    match t
    case Start(_) => 5
    case DraftCheck(_) | UpdateVoid(_, _, _, _, _) | PostCheck(_, _, _) | VoidCheck(_, _, _)
       | InvoiceFind(_) | ApproveCheck(_, _, _) | CloseChecking(_) => 4
    case UpdateInsert(_) | ReverseNumber(_, _, _) | ApproveNumber(_, _, _) => 3
    case InsertHeader(_) | PostCommit(_, _) | VoidPlain(_, _) | ReverseCommit(_, _, _, _)
       | InvoiceInsert(_) | ApproveCommit(_, _, _) | CloseFinish(_, _) => 2
    case InsertLines(_, _) => 1
    case Done(_) => 0
  }

  function LinesLeft(t: Task): nat {
    if t.InsertLines? then |t.rest| else 0
  }

  lemma BeginProgresses(db: DB, req: Request)
    ensures Stage(Begin(db, req).1) < 5
  {
  }

  /** Every step brings a task closer to its reply. */
  lemma AdvanceProgresses(db: DB, t: Task)
    requires !t.Done?
    ensures var t' := Advance(db, t).1;
            Stage(t') < Stage(t) || (Stage(t') == Stage(t) && LinesLeft(t') < LinesLeft(t))
  {
    if t.Start? {
      BeginProgresses(db, t.req);
    }
  }

  function RunAlone(db: DB, t: Task): (DB, Reply)
    decreases Stage(t), LinesLeft(t)
  {
    if t.Done? then (db, t.reply)
    else
      AdvanceProgresses(db, t);
      var (db', t') := Advance(db, t);
      RunAlone(db', t')
  }

  lemma {:induction false} LinesAlone(db: DB, id: Id, rest: seq<Line>)
    requires id < |db.entries|
    ensures var e := db.entries[id];
            RunAlone(db, InsertLines(id, rest))
            == (db.(entries := db.entries[id := e.(lines := e.lines + rest)]), Ok(id))
    decreases |rest|
  {
    var e := db.entries[id];
    if rest == [] {
      assert e.(lines := e.lines + rest) == e;
      assert db.entries[id := e] == db.entries;
      assert RunAlone(db, Done(Ok(id))) == (db, Ok(id));
    } else {
      var db' := AppendLine(db, id, rest[0]);
      LinesAlone(db', id, rest[1..]);
      assert e.lines + [rest[0]] + rest[1..] == e.lines + rest;
      assert RunAlone(db, InsertLines(id, rest)) == RunAlone(db', InsertLines(id, rest[1..]));
      assert db'.entries[id := e.(lines := e.lines + rest)] == db.entries[id := e.(lines := e.lines + rest)];
    }
  }

  lemma HeaderAlone(db: DB, e: Entry)
    ensures RunAlone(db, InsertHeader(e)) == InsertEntry(db, e)
  {
    if !VoucherTaken(db.entries, KeyOf(e), e.voucherNo) {
      var db' := AddEntry(db, e.(lines := []));
      LinesAlone(db', |db.entries|, e.lines);
      assert [] + e.lines == e.lines;
      assert db'.entries[|db.entries| := e] == db.entries + [e];
      assert RunAlone(db, InsertHeader(e)) == RunAlone(db', InsertLines(|db.entries|, e.lines));
    }
  }

  lemma StepAlone(db: DB, t: Task)
    requires !t.Done?
    ensures RunAlone(db, t) == RunAlone(Advance(db, t).0, Advance(db, t).1)
  {
  }

  lemma ConcludedAlone(db: DB, t: Task, r: (DB, Reply))
    requires !t.Done? && Advance(db, t) == Conclude(r)
    ensures RunAlone(db, t) == r
  {
  }

  lemma ReverseCommitAlone(db: DB, entity: string, id: Id, seen: Entry, v: string)
    ensures RunAlone(db, ReverseCommit(entity, id, seen, v)) == ReverseAndVoid(db, entity, id, seen, v)
  {
    ConcludedAlone(db, ReverseCommit(entity, id, seen, v), ReverseAndVoid(db, entity, id, seen, v));
  }

  lemma ReverseAlone(db: DB, entity: string, id: Id, seen: Entry)
    ensures RunAlone(db, ReverseNumber(entity, id, seen))
            == ReverseAndVoid(db, entity, id, seen, NextVoucherNo(db, KeyOf(seen)))
  {
    StepAlone(db, ReverseNumber(entity, id, seen));
    ReverseCommitAlone(db, entity, id, seen, NextVoucherNo(db, KeyOf(seen)));
  }

  lemma DraftAlone(db: DB, entity: string, id: Id, key: PeriodKey)
    ensures RunAlone(db, ApproveNumber(entity, id, key)) == ApproveAndDraft(db, entity, id, NextVoucherNo(db, key))
  {
    var v := NextVoucherNo(db, key);
    StepAlone(db, ApproveNumber(entity, id, key));
    ConcludedAlone(db, ApproveCommit(entity, id, v), ApproveAndDraft(db, entity, id, v));
  }

  lemma CreateAlone(db: DB, req: Request)
    requires req.CreateDraft?
    ensures RunAlone(db, Start(req)) == Apply(db, req)
  {
    StepAlone(db, Start(req));
    var t := Begin(db, req).1;
    if t.DraftCheck? {
      StepAlone(db, t);
      HeaderAlone(db, t.entry);
    }
  }

  lemma UpdateAlone(db: DB, req: Request)
    requires req.UpdateDraft?
    ensures RunAlone(db, Start(req)) == Apply(db, req)
  {
    StepAlone(db, Start(req));
    var t := Begin(db, req).1;
    if t.UpdateVoid? {
      StepAlone(db, t);
      var (voided, insert) := Advance(db, t);
      StepAlone(voided, insert);
      HeaderAlone(voided, insert.entry);
    }
  }

  lemma PostAlone(db: DB, req: Request)
    requires req.Post?
    ensures RunAlone(db, Start(req)) == Apply(db, req)
  {
    StepAlone(db, Start(req));
    var t := Begin(db, req).1;
    if t.PostCheck? {
      StepAlone(db, t);
      if Advance(db, t).1.PostCommit? {
        StepAlone(db, PostCommit(req.entity, req.id));
      }
    }
  }

  lemma VoidAlone(db: DB, req: Request)
    requires req.Void?
    ensures RunAlone(db, Start(req)) == Apply(db, req)
  {
    StepAlone(db, Start(req));
    var t := Begin(db, req).1;
    if t.VoidCheck? {
      StepAlone(db, t);
      var decided := Advance(db, t).1;
      if decided.VoidPlain? {
        StepAlone(db, decided);
      } else if decided.ReverseNumber? {
        ReverseAlone(db, req.entity, req.id, t.seen);
      }
    }
  }

  lemma ApproveAlone(db: DB, req: Request)
    requires req.Approve?
    ensures RunAlone(db, Start(req)) == Apply(db, req)
  {
    StepAlone(db, Start(req));
    var t := Begin(db, req).1;
    if t.ApproveCheck? {
      StepAlone(db, t);
      if Advance(db, t).1.ApproveNumber? {
        DraftAlone(db, req.entity, req.id, t.key);
      }
    }
  }

  lemma TwoStepsAlone(db: DB, req: Request)
    requires req.CreateInvoice? || req.Close?
    ensures RunAlone(db, Start(req)) == Apply(db, req)
  {
    StepAlone(db, Start(req));
    var (begun, t) := Begin(db, req);
    if !t.Done? {
      StepAlone(begun, t);
      var (checked, last) := Advance(begun, t);
      if !last.Done? {
        StepAlone(checked, last);
      }
    }
  }

  /** With nothing in between, the phases of a call add up to the call. */
  lemma RunAloneIsApply(db: DB, req: Request)
    ensures RunAlone(db, Start(req)) == Apply(db, req)
  {
    match req
    case CreateDraft(_, _, _, _, _, _) => CreateAlone(db, req);
    case UpdateDraft(_, _, _, _) => UpdateAlone(db, req);
    case Post(_, _) => PostAlone(db, req);
    case Void(_, _) => VoidAlone(db, req);
    case Approve(_, _) => ApproveAlone(db, req);
    case CreateInvoice(_, _, _) | Close(_) => TwoStepsAlone(db, req);
    case _ => StepAlone(db, Start(req));
  }

  // ---- Many tasks at once ----

  datatype System = System(db: DB, tasks: seq<Task>)

  datatype Event = Arrive(req: Request) | Turn(i: nat)

  function Next(s: System, ev: Event): System {
    match ev
    case Arrive(req) => s.(tasks := s.tasks + [Start(req)])
    case Turn(i) =>
      if i >= |s.tasks| then s
      else
        var (db', t') := Advance(s.db, s.tasks[i]);
        System(db', s.tasks[i := t'])
  }

  /** The system after any interleaving of arrivals and steps. */
  function Exec(s: System, run: seq<Event>): System {
    if run == [] then s else Next(Exec(s, run[..|run| - 1]), run[|run| - 1])
  }

  /** No rows yet, and accounting periods in whatever status. */
  function Fresh(periods: map<PeriodKey, PeriodStatus>): System {
    System(DB([], [], periods), [])
  }
}
