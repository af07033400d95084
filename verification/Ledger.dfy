/**
 The three ledger tables and the service calls on them, one call at a time.

 A table is a sequence whose row ids are the row positions: rows are never deleted and a fresh id is
 the next position.  Amounts are integer cents, as the NUMERIC(18,2) columns hold them.
 */
module Ledger {
  import opened Prelude

  type Id = nat

  datatype EntryStatus = Draft | Posted | Voided

  datatype InvoiceStatus = Pending | Approved | Rejected | InvoicePosted

  datatype PeriodStatus = Open | Closing | Closed | Locked

  datatype PeriodKey = PeriodKey(entity: string, book: string, period: string)

  datatype Line = Line(code: string, name: string, direction: string, debit: int, credit: int)

  /** source is Some(i) when the row's source_type is "invoice" and its source_id names invoice i. */
  datatype Entry = Entry(entity: string, book: string, period: string, voucherNo: string,
                         source: Option<Id>, status: EntryStatus, lines: seq<Line>)

  /** period is the month of the stored issue date. */
  datatype Invoice = Invoice(entity: string, book: string, invoiceNo: string, direction: string,
                             period: string, expenseCode: string, expenseName: string,
                             net: int, tax: int, gross: int, status: InvoiceStatus)

  datatype DB = DB(entries: seq<Entry>, invoices: seq<Invoice>, periods: map<PeriodKey, PeriodStatus>)

  datatype Error = InvalidRequest | NotFound | PeriodClosed | WrongStatus | Duplicate | CheckFailed

  datatype Reply = Ok(id: Id) | Err(error: Error)

  // ---- Money ----

  const DEBIT := "debit"
  const CREDIT := "credit"

  function LineDebit(l: Line): int { l.debit }

  function LineCredit(l: Line): int { l.credit }

  function LineNet(l: Line): int { l.debit - l.credit }

  type Account = (string, string)

  function AccountOf(l: Line): Account { (l.code, l.name) }

  function Debits(lines: seq<Line>): int { Sum(lines, LineDebit) }

  function Credits(lines: seq<Line>): int { Sum(lines, LineCredit) }

  predicate Balanced(lines: seq<Line>) { Debits(lines) == Credits(lines) }

  lemma BalancedConcat(a: seq<Line>, b: seq<Line>)
    ensures Debits(a + b) == Debits(a) + Debits(b)
    ensures Credits(a + b) == Credits(a) + Credits(b)
  {
    SumAppend(a, b, LineDebit);
    SumAppend(a, b, LineCredit);
  }

  // ---- Periods ----

  predicate IsDigit(c: char) { '0' <= c <= '9' }

  /** Four digits, a dash, and a month from 01 to 12. */
  predicate ValidPeriod(p: string) {
    && |p| == 7
    && (forall i | 0 <= i < 7 && i != 4 :: IsDigit(p[i]))
    && p[4] == '-'
    && 1 <= (p[5] as int - '0' as int) * 10 + (p[6] as int - '0' as int) <= 12
  }

  predicate IsClosed(db: DB, k: PeriodKey) {
    k in db.periods && (db.periods[k] == Closed || db.periods[k] == Locked)
  }

  /** The status column moves only if it still holds the expected value. */
  function CasPeriod(db: DB, k: PeriodKey, from: PeriodStatus, to: PeriodStatus): Option<DB> {
    if k in db.periods && db.periods[k] == from then Some(db.(periods := db.periods[k := to])) else None
  }

  // ---- Journal store ----

  function KeyOf(e: Entry): PeriodKey { PeriodKey(e.entity, e.book, e.period) }

  function FindEntry(db: DB, entity: string, id: Id): Option<Entry> {
    if id < |db.entries| && db.entries[id].entity == entity then Some(db.entries[id]) else None
  }

  /** The UNIQUE key over entity, book, period and voucher number. */
  predicate VoucherTaken(es: seq<Entry>, k: PeriodKey, v: string) {
    exists i :: 0 <= i < |es| && KeyOf(es[i]) == k && es[i].voucherNo == v
  }

  function CountKey(es: seq<Entry>, k: PeriodKey): nat {
    if es == [] then 0
    else CountKey(es[..|es| - 1], k) + if KeyOf(es[|es| - 1]) == k then 1 else 0
  }

  function Decimal(n: nat): string {
    if n < 10 then [('0' as int + n) as char]
    else Decimal(n / 10) + [('0' as int + n % 10) as char]
  }

  /** The %03d print. */
  function Pad3(n: nat): string {
    if n < 10 then "00" + Decimal(n) else if n < 100 then "0" + Decimal(n) else Decimal(n)
  }

  const VOUCHER_WORD := "记"

  function VoucherNo(period: string, n: nat): string {
    VOUCHER_WORD + "-" + period + "-" + Pad3(n)
  }

  function NextVoucherNo(db: DB, k: PeriodKey): string {
    VoucherNo(k.period, CountKey(db.entries, k) + 1)
  }

  function SetStatus(db: DB, id: Id, status: EntryStatus): DB
    requires id < |db.entries|
  {
    db.(entries := db.entries[id := db.entries[id].(status := status)])
  }

  function AddEntry(db: DB, e: Entry): DB {
    db.(entries := db.entries + [e])
  }

  /** draft or posted becomes voided; anything else is left alone. */
  function CasVoid(db: DB, entity: string, id: Id): Option<DB> {
    match FindEntry(db, entity, id)
    case None => None
    case Some(e) => if e.status == Voided then None else Some(SetStatus(db, id, Voided))
  }

  /** draft becomes posted, and the approved invoice the entry came from becomes posted with it. */
  function CasPost(db: DB, entity: string, id: Id): Option<DB> {
    match FindEntry(db, entity, id)
    case None => None
    case Some(e) =>
      if e.status != Draft then None
      else
        var db1 := SetStatus(db, id, Posted);
        Some(if e.source.Some? then MarkInvoicePosted(db1, entity, e.source.value) else db1)
  }

  /** The lines of the posted entries of one period, in row order. */
  function PostedLines(es: seq<Entry>, k: PeriodKey): seq<Line> {
    if es == [] then []
    else
      var e := es[|es| - 1];
      PostedLines(es[..|es| - 1], k) + if KeyOf(e) == k && e.status == Posted then e.lines else []
  }

  /** The entries of one period, in row order. */
  function EntriesOf(es: seq<Entry>, k: PeriodKey): seq<Entry> {
    if es == [] then []
    else
      EntriesOf(es[..|es| - 1], k) + if KeyOf(es[|es| - 1]) == k then [es[|es| - 1]] else []
  }

  // ---- Invoice store ----

  function FindInvoice(db: DB, entity: string, id: Id): Option<Invoice> {
    if id < |db.invoices| && db.invoices[id].entity == entity then Some(db.invoices[id]) else None
  }

  function CasInvoice(db: DB, entity: string, id: Id, from: InvoiceStatus, to: InvoiceStatus): Option<DB> {
    match FindInvoice(db, entity, id)
    case None => None
    case Some(inv) =>
      if inv.status != from then None
      else Some(db.(invoices := db.invoices[id := inv.(status := to)]))
  }

  function MarkInvoicePosted(db: DB, entity: string, id: Id): DB {
    match CasInvoice(db, entity, id, Approved, InvoicePosted)
    case None => db
    case Some(db') => db'
  }

  predicate SameInvoiceNo(inv: Invoice, entity: string, book: string, invoiceNo: string) {
    inv.entity == entity && inv.book == book && inv.invoiceNo == invoiceNo
  }

  function FindByInvoiceNo(invs: seq<Invoice>, entity: string, book: string, invoiceNo: string): (r: Option<Id>)
    ensures r.Some? ==> r.value < |invs| && SameInvoiceNo(invs[r.value], entity, book, invoiceNo)
    ensures r.None? ==> forall i | 0 <= i < |invs| :: !SameInvoiceNo(invs[i], entity, book, invoiceNo)
  {
    if invs == [] then None
    else if SameInvoiceNo(invs[|invs| - 1], entity, book, invoiceNo) then Some(|invs| - 1)
    else FindByInvoiceNo(invs[..|invs| - 1], entity, book, invoiceNo)
  }

  predicate PostedIn(inv: Invoice, k: PeriodKey) {
    PeriodKey(inv.entity, inv.book, inv.period) == k && inv.status == InvoicePosted
  }

  /** The posted invoices of one period, from which every VAT report is computed. */
  function PostedInvoices(invs: seq<Invoice>, k: PeriodKey): seq<Invoice> {
    if invs == [] then []
    else
      var inv := invs[|invs| - 1];
      PostedInvoices(invs[..|invs| - 1], k) + if PostedIn(inv, k) then [inv] else []
  }

  // ---- Building entries ----

  const OUTPUT := "output"
  const INPUT := "input"

  function InputLines(inv: Invoice): seq<Line> {
    [ Line(inv.expenseCode, inv.expenseName, DEBIT, inv.net, 0),
      Line("2221-01", "应交税费-应交增值税-进项税额", DEBIT, inv.tax, 0),
      Line("1002", "银行存款", CREDIT, 0, inv.gross) ]
  }

  function OutputLines(inv: Invoice): seq<Line> {
    [ Line("1122", "应收账款", DEBIT, inv.gross, 0),
      Line("6001", "主营业务收入", CREDIT, 0, inv.net),
      Line("2221-02", "应交税费-应交增值税-销项税额", CREDIT, 0, inv.tax) ]
  }

  function InvoiceLines(inv: Invoice): seq<Line> {
    if inv.direction == OUTPUT then OutputLines(inv) else InputLines(inv)
  }

  predicate SoundAmounts(inv: Invoice) {
    inv.net >= 0 && inv.tax >= 0 && inv.gross >= 0 && inv.net + inv.tax == inv.gross
  }

  function InvoiceDraft(inv: Invoice, id: Id, voucherNo: string): Entry {
    Entry(inv.entity, inv.book, inv.period, voucherNo, Some(id), Draft, InvoiceLines(inv))
  }

  function ReverseDirection(d: string): string {
    if d == DEBIT then CREDIT else DEBIT
  }

  function MirrorLine(l: Line): Line {
    Line(l.code, l.name, ReverseDirection(l.direction), l.credit, l.debit)
  }

  function Mirror(lines: seq<Line>): (r: seq<Line>)
    ensures |r| == |lines|
    ensures forall i | 0 <= i < |lines| :: r[i] == MirrorLine(lines[i])
  {
    if lines == [] then [] else Mirror(lines[..|lines| - 1]) + [MirrorLine(lines[|lines| - 1])]
  }

  function Reversal(e: Entry, voucherNo: string, status: EntryStatus): Entry {
    Entry(e.entity, e.book, e.period, voucherNo, e.source, status, Mirror(e.lines))
  }

  // ---- Requests ----

  datatype Request =
    | CreateDraft(entity: string, book: string, period: string, voucherNo: string,
                  source: Option<Id>, lines: seq<Line>)
    | UpdateDraft(entity: string, id: Id, source: Option<Id>, lines: seq<Line>)
    | Post(entity: string, id: Id)
    | Void(entity: string, id: Id)
      // datePeriod is the month read off the issue date as it was typed; wellFormed, the format checks
    | CreateInvoice(invoice: Invoice, datePeriod: string, wellFormed: bool)
    | Approve(entity: string, id: Id)
    | Reject(entity: string, id: Id)
    | OpenPeriod(key: PeriodKey)
    | Close(key: PeriodKey)
    | Reopen(key: PeriodKey)
    | Lock(key: PeriodKey)

  function DraftEntry(entity: string, book: string, period: string, voucherNo: string,
                      source: Option<Id>, lines: seq<Line>): Entry {
    Entry(entity, book, period, voucherNo, source, Draft, lines)
  }

  function InsertEntry(db: DB, e: Entry): (DB, Reply) {
    if VoucherTaken(db.entries, KeyOf(e), e.voucherNo) then (db, Err(Duplicate))
    else (AddEntry(db, e), Ok(|db.entries|))
  }

  function CreateDraftCall(db: DB, entity: string, book: string, period: string, voucherNo: string,
                           source: Option<Id>, lines: seq<Line>): (DB, Reply) {
    var k := PeriodKey(entity, book, period);
    var v := if voucherNo == "" then NextVoucherNo(db, k) else voucherNo;
    if lines == [] then (db, Err(InvalidRequest))
    else if period != "" && !ValidPeriod(period) then (db, Err(InvalidRequest))
    else if IsClosed(db, k) then (db, Err(PeriodClosed))
    else if !Balanced(lines) then (db, Err(InvalidRequest))
    else InsertEntry(db, DraftEntry(entity, book, period, v, source, lines))
  }

  /** The old draft is voided first; the replacement then asks for the voided row's voucher number. */
  function UpdateDraftCall(db: DB, entity: string, id: Id, source: Option<Id>, lines: seq<Line>): (DB, Reply) {
    match FindEntry(db, entity, id)
    case None => (db, Err(NotFound))
    case Some(e) =>
      if e.status != Draft then (db, Err(WrongStatus))
      else
        var db1 := SetStatus(db, id, Voided);
        if !Balanced(lines) then (db1, Err(InvalidRequest))
        else InsertEntry(db1, DraftEntry(entity, e.book, e.period, e.voucherNo, source, lines))
  }

  function PostCall(db: DB, entity: string, id: Id): (DB, Reply) {
    match FindEntry(db, entity, id)
    case None => (db, Err(NotFound))
    case Some(e) =>
      if IsClosed(db, KeyOf(e)) then (db, Err(PeriodClosed))
      else if e.status == Posted then (db, Ok(id))
      else if e.lines == [] then (db, Err(InvalidRequest))
      else if !Balanced(e.lines) then (db, Err(InvalidRequest))
      else
        match CasPost(db, entity, id)
        case None => (db, Err(WrongStatus))
        case Some(db') => (db', Ok(id))
  }

  /** Insert the reversal as a draft, post it, void the original: all of it or none of it. */
  function ReverseAndVoid(db: DB, entity: string, id: Id, e: Entry, voucherNo: string): (DB, Reply) {
    var rev := Reversal(e, voucherNo, Posted);
    if VoucherTaken(db.entries, KeyOf(rev), voucherNo) then (db, Err(Duplicate))
    else
      match CasVoid(AddEntry(db, rev), entity, id)
      case None => (db, Err(NotFound))
      case Some(db') => (db', Ok(id))
  }

  function VoidCall(db: DB, entity: string, id: Id): (DB, Reply) {
    match FindEntry(db, entity, id)
    case None => (db, Err(NotFound))
    case Some(e) =>
      if IsClosed(db, KeyOf(e)) then (db, Err(PeriodClosed))
      else if e.status != Posted then
        match CasVoid(db, entity, id)
        case None => (db, Err(NotFound))
        case Some(db') => (db', Ok(id))
      else ReverseAndVoid(db, entity, id, e, NextVoucherNo(db, KeyOf(e)))
  }

  function Abs(x: int): nat { if x < 0 then -x else x }

  predicate AcceptableInvoice(inv: Invoice, wellFormed: bool) {
    && wellFormed
    && inv.invoiceNo != ""
    && (inv.direction == "" || inv.direction == INPUT || inv.direction == OUTPUT)
    && Abs(inv.gross - inv.net - inv.tax) <= 2
  }

  function CreateInvoiceCall(db: DB, inv: Invoice, datePeriod: string, wellFormed: bool): (DB, Reply) {
    if !AcceptableInvoice(inv, wellFormed) then (db, Err(InvalidRequest))
    else if inv.book != "" && IsClosed(db, PeriodKey(inv.entity, inv.book, datePeriod)) then (db, Err(PeriodClosed))
    else
      match FindByInvoiceNo(db.invoices, inv.entity, inv.book, inv.invoiceNo)
      case Some(i) => (db, Ok(i))
      case None => (db.(invoices := db.invoices + [inv.(status := Pending)]), Ok(|db.invoices|))
  }

  /** Approve the row, then add its draft: all of it or none of it. */
  function ApproveAndDraft(db: DB, entity: string, id: Id, voucherNo: string): (DB, Reply) {
    match CasInvoice(db, entity, id, Pending, Approved)
    case None => (db, Err(WrongStatus))
    case Some(db1) =>
      var inv := db.invoices[id];
      var draft := InvoiceDraft(inv, id, voucherNo);
      if !SoundAmounts(inv) then (db, Err(InvalidRequest))
      else if !Balanced(draft.lines) then (db, Err(InvalidRequest))
      else if VoucherTaken(db.entries, KeyOf(draft), voucherNo) then (db, Err(Duplicate))
      else (AddEntry(db1, draft), Ok(id))
  }

  function InvoiceKey(inv: Invoice): PeriodKey { PeriodKey(inv.entity, inv.book, inv.period) }

  function ApproveCall(db: DB, entity: string, id: Id): (DB, Reply) {
    match FindInvoice(db, entity, id)
    case None => (db, Err(NotFound))
    case Some(inv) =>
      if IsClosed(db, InvoiceKey(inv)) then (db, Err(PeriodClosed))
      else ApproveAndDraft(db, entity, id, NextVoucherNo(db, InvoiceKey(inv)))
  }

  function RejectCall(db: DB, entity: string, id: Id): (DB, Reply) {
    match CasInvoice(db, entity, id, Pending, Rejected)
    case None => (db, Err(WrongStatus))
    case Some(db') => (db', Ok(id))
  }

  // ---- Period calls ----

  /** A list query takes an empty book or period as no filter at all. */
  predicate Selects(filter: string, value: string) { filter == "" || filter == value }

  predicate IsPending(inv: Invoice, k: PeriodKey) {
    inv.entity == k.entity && Selects(k.book, inv.book) && Selects(k.period, inv.period) && inv.status == Pending
  }

  predicate IsDraft(e: Entry, k: PeriodKey) {
    e.entity == k.entity && Selects(k.book, e.book) && Selects(k.period, e.period) && e.status == Draft
  }

  predicate HasPendingInvoice(db: DB, k: PeriodKey) {
    exists i :: 0 <= i < |db.invoices| && IsPending(db.invoices[i], k)
  }

  predicate HasDraft(db: DB, k: PeriodKey) {
    exists i :: 0 <= i < |db.entries| && IsDraft(db.entries[i], k)
  }

  predicate CloseCheckPasses(db: DB, k: PeriodKey) {
    !HasPendingInvoice(db, k) && !HasDraft(db, k) && Balanced(PostedLines(db.entries, k))
  }

  function CasReply(db: DB, next: Option<DB>): (DB, Reply) {
    match next
    case None => (db, Err(NotFound))
    case Some(db') => (db', Ok(0))
  }

  function CloseCall(db: DB, k: PeriodKey): (DB, Reply) {
    if k.book == "" then (db, Err(InvalidRequest))
    else
      match CasPeriod(db, k, Open, Closing)
      case None => (db, Err(NotFound))
      case Some(closing) =>
        if CloseCheckPasses(closing, k) then (closing.(periods := closing.periods[k := Closed]), Ok(0))
        else (closing.(periods := closing.periods[k := Open]), Err(CheckFailed))
  }

  function PeriodCall(db: DB, k: PeriodKey, from: PeriodStatus, to: PeriodStatus): (DB, Reply) {
    if k.book == "" then (db, Err(InvalidRequest)) else CasReply(db, CasPeriod(db, k, from, to))
  }

  function OpenPeriodCall(db: DB, k: PeriodKey): (DB, Reply) {
    (if k in db.periods then db else db.(periods := db.periods[k := Open]), Ok(0))
  }

  /** What one service call does when nothing else runs. */
  function Apply(db: DB, req: Request): (DB, Reply) {
    match req
    case CreateDraft(entity, book, period, voucherNo, source, lines) =>
      CreateDraftCall(db, entity, book, period, voucherNo, source, lines)
    case UpdateDraft(entity, id, source, lines) => UpdateDraftCall(db, entity, id, source, lines)
    case Post(entity, id) => PostCall(db, entity, id)
    case Void(entity, id) => VoidCall(db, entity, id)
    case CreateInvoice(inv, datePeriod, wellFormed) => CreateInvoiceCall(db, inv, datePeriod, wellFormed)
    case Approve(entity, id) => ApproveCall(db, entity, id)
    case Reject(entity, id) => RejectCall(db, entity, id)
    case OpenPeriod(k) => OpenPeriodCall(db, k)
    case Close(k) => CloseCall(db, k)
    case Reopen(k) => PeriodCall(db, k, Closed, Open)
    case Lock(k) => PeriodCall(db, k, Closed, Locked)
  }

  /** The tables after a history of calls that never overlap. */
  function ApplyAll(db: DB, history: seq<Request>): DB {
    if history == [] then db
    else Apply(ApplyAll(db, history[..|history| - 1]), history[|history| - 1]).0
  }
}
