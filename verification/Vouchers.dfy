/** Voucher numbers: the rows of a period are numbered 1, 2, 3, ... in the order they were inserted. */
module Vouchers {
  import opened Prelude
  import opened Ledger
  import opened Phases

  // ---- The printed number ----

  /** Reads a printed number back; leading zeros do not matter. */
  function Value(s: string): int {
    if s == "" then 0 else Value(s[..|s| - 1]) * 10 + (s[|s| - 1] as int - '0' as int)
  }

  lemma {:induction false} DecimalValue(n: nat)
    ensures Value(Decimal(n)) == n
  {
    if n < 10 {
      assert Decimal(n)[..0] == "";
    } else {
      var s := Decimal(n);
      assert s[..|s| - 1] == Decimal(n / 10);
      DecimalValue(n / 10);
    }
  }

  lemma {:induction false} LeadingZero(s: string)
    ensures Value("0" + s) == Value(s)
  {
    if s == "" {
      assert ("0" + s)[..0] == "";
    } else {
      assert ("0" + s)[..|s|] == "0" + s[..|s| - 1];
      LeadingZero(s[..|s| - 1]);
    }
  }

  /** The %03d print can be read back. */
  lemma Pad3Value(n: nat)
    ensures Value(Pad3(n)) == n
  {
    DecimalValue(n);
    LeadingZero(Decimal(n));
    LeadingZero("0" + Decimal(n));
    assert "0" + ("0" + Decimal(n)) == "00" + Decimal(n);
  }

  lemma VoucherNoInjective(period: string, m: nat, n: nat)
    requires VoucherNo(period, m) == VoucherNo(period, n)
    ensures m == n
  {
    var prefix := VOUCHER_WORD + "-" + period + "-";
    assert VoucherNo(period, m)[|prefix|..] == Pad3(m);
    assert VoucherNo(period, n)[|prefix|..] == Pad3(n);
    Pad3Value(m);
    Pad3Value(n);
  }

  lemma {:induction false} DecimalPrints(n: nat)
    ensures |Decimal(n)| >= 1 && (forall c | c in Decimal(n) :: IsDigit(c))
    ensures n >= 10 ==> |Decimal(n)| >= 2 && Decimal(n)[0] != '0'
    ensures n >= 100 ==> |Decimal(n)| >= 3
    ensures 1 <= n < 10 ==> Decimal(n)[0] != '0'
    ensures n < 10 ==> |Decimal(n)| == 1
    ensures n < 100 ==> |Decimal(n)| <= 2
  {
    if n >= 10 {
      DecimalPrints(n / 10);
    }
  }

  /** A voucher number reads word, period and count: the count in decimal digits, zeros filling it up to three only. */
  lemma VoucherNoPrints(period: string, n: nat)
    ensures var v := VoucherNo(period, n);
            && |v| >= |period| + 6
            && v[..|period| + 3] == "记-" + period + "-"
            && var digits := v[|period| + 3..];
               && Value(digits) == n && (forall c | c in digits :: IsDigit(c))
               && (|digits| > 3 ==> digits[0] != '0')
  {
    var prefix := "记-" + period + "-";
    DecimalPrints(n);
    Pad3Value(n);
    assert VoucherNo(period, n) == prefix + Pad3(n) && |prefix| == |period| + 3;
    assert VoucherNo(period, n)[|prefix|..] == Pad3(n);
  }

  // ---- The numbers of one period ----

  /** The voucher numbers of the rows of k, in insertion order. */
  function Vouchers(es: seq<Entry>, k: PeriodKey): seq<string> {
    if es == [] then []
    else
      var e := es[|es| - 1];
      Vouchers(es[..|es| - 1], k) + if KeyOf(e) == k then [e.voucherNo] else []
  }

  lemma {:induction false} VouchersCount(es: seq<Entry>, k: PeriodKey)
    ensures |Vouchers(es, k)| == CountKey(es, k)
  {
    if es != [] {
      VouchersCount(es[..|es| - 1], k);
    }
  }

  lemma {:induction false} TakenIsVoucher(es: seq<Entry>, k: PeriodKey, v: string)
    ensures VoucherTaken(es, k, v) <==> v in Vouchers(es, k)
  {
    if es != [] {
      var n := |es| - 1;
      TakenIsVoucher(es[..n], k, v);
      if VoucherTaken(es, k, v) {
        var i :| 0 <= i < |es| && KeyOf(es[i]) == k && es[i].voucherNo == v;
        assert i < n ==> es[..n][i] == es[i];
      }
      if VoucherTaken(es[..n], k, v) {
        var i :| 0 <= i < n && KeyOf(es[..n][i]) == k && es[..n][i].voucherNo == v;
        assert es[i] == es[..n][i];
      }
      if v in Vouchers(es, k) && v !in Vouchers(es[..n], k) {
        assert KeyOf(es[n]) == k && es[n].voucherNo == v;
      }
    }
  }

  predicate SameRow(a: Entry, b: Entry) { KeyOf(a) == KeyOf(b) && a.voucherNo == b.voucherNo }

  predicate SameRows(es: seq<Entry>, es': seq<Entry>) {
    |es| == |es'| && forall i :: 0 <= i < |es| ==> SameRow(es[i], es'[i])
  }

  lemma {:induction false} SameRowsSameVouchers(es: seq<Entry>, es': seq<Entry>, k: PeriodKey)
    requires SameRows(es, es')
    ensures Vouchers(es', k) == Vouchers(es, k)
    ensures CountKey(es', k) == CountKey(es, k)
  {
    if es != [] {
      assert SameRow(es[|es| - 1], es'[|es| - 1]);
      SameRowsSameVouchers(es[..|es| - 1], es'[..|es| - 1], k);
    }
  }

  /** The rows stay, or one row joins them under a voucher number its period did not have. */
  ghost predicate RowsGrow(es: seq<Entry>, es': seq<Entry>) {
    || SameRows(es, es')
    || (&& |es'| == |es| + 1
        && SameRows(es, es'[..|es|])
        && !VoucherTaken(es, KeyOf(es'[|es|]), es'[|es|].voucherNo))
  }

  lemma {:induction false} GrowVouchers(es: seq<Entry>, es': seq<Entry>, k: PeriodKey)
    requires RowsGrow(es, es')
    ensures Vouchers(es', k) == Vouchers(es, k)
            || (&& |es'| == |es| + 1 && KeyOf(es'[|es|]) == k
                && Vouchers(es', k) == Vouchers(es, k) + [es'[|es|].voucherNo]
                && es'[|es|].voucherNo !in Vouchers(es, k))
    ensures CountKey(es, k) <= CountKey(es', k)
  {
    if SameRows(es, es') {
      SameRowsSameVouchers(es, es', k);
    } else {
      SameRowsSameVouchers(es, es'[..|es|], k);
      TakenIsVoucher(es, k, es'[|es|].voucherNo);
    }
    VouchersCount(es, k);
    VouchersCount(es', k);
  }

  lemma RowAdded(es: seq<Entry>, e: Entry)
    requires !VoucherTaken(es, KeyOf(e), e.voucherNo)
    ensures RowsGrow(es, es + [e])
  {
    assert (es + [e])[..|es|] == es;
  }

  lemma RowReversed(es: seq<Entry>, rev: Entry, id: Id)
    requires !VoucherTaken(es, KeyOf(rev), rev.voucherNo) && id <= |es|
    ensures RowsGrow(es, (es + [rev])[id := (es + [rev])[id].(status := Voided)])
  {
    var es' := (es + [rev])[id := (es + [rev])[id].(status := Voided)];
    assert SameRows(es, es'[..|es|]);
  }

  lemma ReverseGrowsRows(db: DB, t: Task)
    requires t.ReverseCommit?
    ensures RowsGrow(db.entries, Advance(db, t).0.entries)
  {
    ReverseStep(db, t);
    if Advance(db, t).0 != db {
      RowReversed(db.entries, Reversal(t.seen, t.voucherNo, Posted), t.id);
    }
  }

  lemma InsertGrowsRows(db: DB, t: Task)
    requires t.InsertHeader? || t.ApproveCommit?
    ensures RowsGrow(db.entries, Advance(db, t).0.entries)
  {
    if t.InsertHeader? {
      if Advance(db, t).0 != db {
        RowAdded(db.entries, t.entry.(lines := []));
      }
    } else {
      ApproveStep(db, t);
      if Advance(db, t).0 != db {
        RowAdded(db.entries, InvoiceDraft(db.invoices[t.id], t.id, t.voucherNo));
      }
    }
  }

  /** No step ever deletes a row, changes its voucher number, or repeats one. */
  lemma AdvanceGrowsRows(db: DB, t: Task)
    ensures RowsGrow(db.entries, Advance(db, t).0.entries)
  {
    if !WritesJournal(t) {
      OtherStepsLeaveJournal(db, t);
    } else if t.UpdateVoid? || t.VoidPlain? {
      VoidSteps(db, t);
    } else if t.PostCommit? {
      PostStep(db, t);
    } else if t.ReverseCommit? {
      ReverseGrowsRows(db, t);
    } else if t.InsertHeader? || t.ApproveCommit? {
      InsertGrowsRows(db, t);
    }
  }

  ghost predicate NoRepeats(vs: seq<string>) {
    forall i, j :: 0 <= i < j < |vs| ==> vs[i] != vs[j]
  }

  /** The UNIQUE key holds in every reachable state, whatever numbers callers choose. */
  lemma {:induction false} VouchersNeverRepeat(periods: map<PeriodKey, PeriodStatus>, run: seq<Event>, k: PeriodKey)
    ensures NoRepeats(Vouchers(Exec(Fresh(periods), run).db.entries, k))
  {
    if run != [] {
      var n := |run| - 1;
      VouchersNeverRepeat(periods, run[..n], k);
      var s := Exec(Fresh(periods), run[..n]);
      if run[n].Turn? && run[n].i < |s.tasks| {
        AdvanceGrowsRows(s.db, s.tasks[run[n].i]);
        GrowVouchers(s.db.entries, Exec(Fresh(periods), run).db.entries, k);
      }
    }
  }

  // ---- Generated numbers ----

  /** v was printed for a count of at most the present one. */
  ghost predicate Generated(es: seq<Entry>, k: PeriodKey, v: string) {
    exists n: nat :: 1 <= n <= CountKey(es, k) + 1 && v == VoucherNo(k.period, n)
  }

  ghost predicate InSequence(es: seq<Entry>, k: PeriodKey) {
    forall j :: 0 <= j < |Vouchers(es, k)| ==> Vouchers(es, k)[j] == VoucherNo(k.period, j + 1)
  }

  ghost predicate TaskGenerated(db: DB, k: PeriodKey, t: Task) {
    match t
    case Start(req) =>
      req.CreateDraft? && PeriodKey(req.entity, req.book, req.period) == k ==> req.voucherNo == ""
    case DraftCheck(e) => KeyOf(e) == k ==> Generated(db.entries, k, e.voucherNo)
    case InsertHeader(e) => KeyOf(e) == k ==> Generated(db.entries, k, e.voucherNo)
    case UpdateInsert(e) => KeyOf(e) == k ==> Generated(db.entries, k, e.voucherNo)
    case UpdateVoid(entity, _, seen, _, _) =>
      entity == seen.entity && (KeyOf(seen) == k ==> Generated(db.entries, k, seen.voucherNo))
    case ReverseCommit(_, _, seen, v) => KeyOf(seen) == k ==> Generated(db.entries, k, v)
    case ApproveCheck(_, id, key) => id < |db.invoices| && key == InvoiceKey(db.invoices[id])
    case ApproveNumber(_, id, key) => id < |db.invoices| && key == InvoiceKey(db.invoices[id])
    case ApproveCommit(_, id, v) =>
      id < |db.invoices| && (InvoiceKey(db.invoices[id]) == k ==> Generated(db.entries, k, v))
    case _ => true
  }

  ghost predicate AllGenerated(s: System, k: PeriodKey) {
    InSequence(s.db.entries, k)
    && forall i :: 0 <= i < |s.tasks| ==> TaskGenerated(s.db, k, s.tasks[i])
  }

  lemma NextIsGenerated(db: DB, k: PeriodKey)
    ensures Generated(db.entries, k, NextVoucherNo(db, k))
  {
    var n := CountKey(db.entries, k) + 1;
    assert 1 <= n <= CountKey(db.entries, k) + 1 && NextVoucherNo(db, k) == VoucherNo(k.period, n);
  }

  lemma RowIsGenerated(es: seq<Entry>, id: Id)
    requires id < |es| && InSequence(es, KeyOf(es[id]))
    ensures Generated(es, KeyOf(es[id]), es[id].voucherNo)
  {
    var k, v := KeyOf(es[id]), es[id].voucherNo;
    assert VoucherTaken(es, k, v);
    TakenIsVoucher(es, k, v);
    var j :| 0 <= j < |Vouchers(es, k)| && Vouchers(es, k)[j] == v;
    VouchersCount(es, k);
    assert 1 <= j + 1 <= CountKey(es, k) + 1 && v == VoucherNo(k.period, j + 1);
  }

  lemma GeneratedLasts(es: seq<Entry>, es': seq<Entry>, k: PeriodKey, v: string)
    requires Generated(es, k, v) && CountKey(es, k) <= CountKey(es', k)
    ensures Generated(es', k, v)
  {
    var n: nat :| 1 <= n <= CountKey(es, k) + 1 && v == VoucherNo(k.period, n);
    assert n <= CountKey(es', k) + 1;
  }

  lemma NumberInUse(es: seq<Entry>, k: PeriodKey, n: nat)
    requires InSequence(es, k) && 1 <= n <= CountKey(es, k)
    ensures VoucherNo(k.period, n) in Vouchers(es, k)
  {
    VouchersCount(es, k);
    assert Vouchers(es, k)[n - 1] == VoucherNo(k.period, n);
  }

  /** A stale number is refused; only the number after the last row gets in. */
  lemma OnlyTheNextFits(es: seq<Entry>, k: PeriodKey, v: string)
    requires InSequence(es, k) && Generated(es, k, v) && v !in Vouchers(es, k)
    ensures v == VoucherNo(k.period, CountKey(es, k) + 1)
  {
    var n: nat :| 1 <= n <= CountKey(es, k) + 1 && v == VoucherNo(k.period, n);
    if n <= CountKey(es, k) {
      NumberInUse(es, k, n);
    }
  }

  ghost predicate SameInvoices(invs: seq<Invoice>, invs': seq<Invoice>) {
    |invs| <= |invs'| && forall i :: 0 <= i < |invs| ==> invs'[i] == invs[i].(status := invs'[i].status)
  }

  /** Only the status of an invoice row ever changes. */
  lemma InvoiceRowsLast(db: DB, t: Task)
    ensures SameInvoices(db.invoices, Advance(db, t).0.invoices)
  {
    if t.Start? {
      BeginInvoiceRowsLast(db, t.req);
    } else if t.ApproveCommit? {
      ApproveStep(db, t);
    } else if t.ReverseCommit? {
      ReverseStep(db, t);
    }
  }

  lemma BeginInvoiceRowsLast(db: DB, req: Request)
    ensures SameInvoices(db.invoices, Begin(db, req).0.invoices)
  {
  }

  lemma TaskStaysGenerated(db: DB, db': DB, k: PeriodKey, t: Task)
    requires TaskGenerated(db, k, t)
    requires CountKey(db.entries, k) <= CountKey(db'.entries, k)
    requires SameInvoices(db.invoices, db'.invoices)
    ensures TaskGenerated(db', k, t)
  {
    match t
    case DraftCheck(e) => if KeyOf(e) == k { GeneratedLasts(db.entries, db'.entries, k, e.voucherNo); }
    case InsertHeader(e) => if KeyOf(e) == k { GeneratedLasts(db.entries, db'.entries, k, e.voucherNo); }
    case UpdateInsert(e) => if KeyOf(e) == k { GeneratedLasts(db.entries, db'.entries, k, e.voucherNo); }
    case UpdateVoid(_, _, seen, _, _) =>
      if KeyOf(seen) == k { GeneratedLasts(db.entries, db'.entries, k, seen.voucherNo); }
    case ReverseCommit(_, _, seen, v) => if KeyOf(seen) == k { GeneratedLasts(db.entries, db'.entries, k, v); }
    case ApproveCommit(_, id, v) =>
      if InvoiceKey(db.invoices[id]) == k { GeneratedLasts(db.entries, db'.entries, k, v); }
    case _ =>
  }

  lemma UpdateBeginGenerated(db: DB, k: PeriodKey, req: Request)
    requires req.UpdateDraft? && InSequence(db.entries, k)
    ensures TaskGenerated(db, k, Begin(db, req).1)
  {
    if req.id < |db.entries| && KeyOf(db.entries[req.id]) == k {
      RowIsGenerated(db.entries, req.id);
    }
  }

  lemma CreateBeginGenerated(db: DB, k: PeriodKey, req: Request)
    requires req.CreateDraft? && TaskGenerated(db, k, Start(req))
    ensures TaskGenerated(db, k, Begin(db, req).1)
  {
    NextIsGenerated(db, PeriodKey(req.entity, req.book, req.period));
  }

  lemma BeginGenerated(db: DB, k: PeriodKey, req: Request)
    requires InSequence(db.entries, k) && TaskGenerated(db, k, Start(req))
    ensures TaskGenerated(db, k, Begin(db, req).1)
  {
    match req
    case CreateDraft(_, _, _, _, _, _) => CreateBeginGenerated(db, k, req);
    case UpdateDraft(_, _, _, _) => UpdateBeginGenerated(db, k, req);
    case _ =>
  }

  /** A number drawn now, or carried on from the row being replaced, is a generated one. */
  lemma DrawnGenerated(db: DB, k: PeriodKey, t: Task)
    requires t.UpdateVoid? || t.ReverseNumber? || t.ApproveNumber?
    requires TaskGenerated(db, k, t)
    requires CountKey(db.entries, k) <= CountKey(Advance(db, t).0.entries, k)
    requires SameInvoices(db.invoices, Advance(db, t).0.invoices)
    ensures TaskGenerated(Advance(db, t).0, k, Advance(db, t).1)
  {
    match t
    case UpdateVoid(_, _, seen, _, _) =>
      if KeyOf(seen) == k { GeneratedLasts(db.entries, Advance(db, t).0.entries, k, seen.voucherNo); }
    case ReverseNumber(_, _, seen) => NextIsGenerated(db, KeyOf(seen));
    case ApproveNumber(_, _, key) => NextIsGenerated(db, key);
  }

  lemma CarriedGenerated(db: DB, k: PeriodKey, t: Task)
    requires !t.Start? && !t.UpdateVoid? && !t.ReverseNumber? && !t.ApproveNumber?
    requires TaskGenerated(db, k, t)
    requires SameInvoices(db.invoices, Advance(db, t).0.invoices)
    ensures TaskGenerated(Advance(db, t).0, k, Advance(db, t).1)
  {
  }

  /** A task goes on carrying only generated numbers for k. */
  lemma NextTaskGenerated(db: DB, k: PeriodKey, t: Task)
    requires InSequence(db.entries, k) && TaskGenerated(db, k, t)
    requires CountKey(db.entries, k) <= CountKey(Advance(db, t).0.entries, k)
    requires SameInvoices(db.invoices, Advance(db, t).0.invoices)
    ensures TaskGenerated(Advance(db, t).0, k, Advance(db, t).1)
  {
    if t.Start? {
      BeginGenerated(db, k, t.req);
      TaskStaysGenerated(db, Advance(db, t).0, k, Begin(db, t.req).1);
    } else if t.UpdateVoid? || t.ReverseNumber? || t.ApproveNumber? {
      DrawnGenerated(db, k, t);
    } else {
      CarriedGenerated(db, k, t);
    }
  }

  /** What a row-inserting step inserts for k carries a generated number. */
  lemma InsertedIsGenerated(db: DB, k: PeriodKey, t: Task)
    requires TaskGenerated(db, k, t)
    ensures var es' := Advance(db, t).0.entries;
            |es'| == |db.entries| + 1 && KeyOf(es'[|db.entries|]) == k
            ==> Generated(db.entries, k, es'[|db.entries|].voucherNo)
  {
    if !WritesJournal(t) {
      OtherStepsLeaveJournal(db, t);
    } else if t.UpdateVoid? || t.VoidPlain? {
      VoidSteps(db, t);
    } else if t.PostCommit? {
      PostStep(db, t);
    } else if t.ReverseCommit? {
      ReverseStep(db, t);
    } else if t.ApproveCommit? {
      ApproveStep(db, t);
    }
  }

  lemma SequenceGrows(es: seq<Entry>, es': seq<Entry>, k: PeriodKey)
    requires InSequence(es, k) && RowsGrow(es, es')
    requires |es'| == |es| + 1 && KeyOf(es'[|es|]) == k ==> Generated(es, k, es'[|es|].voucherNo)
    ensures InSequence(es', k)
  {
    GrowVouchers(es, es', k);
    VouchersCount(es, k);
    if Vouchers(es', k) != Vouchers(es, k) {
      OnlyTheNextFits(es, k, es'[|es|].voucherNo);
      forall j | 0 <= j < |Vouchers(es', k)|
        ensures Vouchers(es', k)[j] == VoucherNo(k.period, j + 1)
      {
        assert j < |Vouchers(es, k)| ==> Vouchers(es', k)[j] == Vouchers(es, k)[j];
      }
    }
  }

  lemma {:induction false} SequenceStep(db: DB, k: PeriodKey, t: Task)
    requires InSequence(db.entries, k) && TaskGenerated(db, k, t)
    ensures InSequence(Advance(db, t).0.entries, k)
    ensures CountKey(db.entries, k) <= CountKey(Advance(db, t).0.entries, k)
  {
    AdvanceGrowsRows(db, t);
    InsertedIsGenerated(db, k, t);
    SequenceGrows(db.entries, Advance(db, t).0.entries, k);
    GrowVouchers(db.entries, Advance(db, t).0.entries, k);
  }

  lemma TurnKeepsSequence(s: System, k: PeriodKey, i: nat)
    requires AllGenerated(s, k) && i < |s.tasks|
    ensures AllGenerated(Next(s, Turn(i)), k)
  {
    var db, t := s.db, s.tasks[i];
    var db' := Advance(db, t).0;
    assert TaskGenerated(db, k, t);
    SequenceStep(db, k, t);
    InvoiceRowsLast(db, t);
    NextTaskGenerated(db, k, t);
    forall j | 0 <= j < |s.tasks| && j != i
      ensures TaskGenerated(db', k, s.tasks[j])
    {
      TaskStaysGenerated(db, db', k, s.tasks[j]);
    }
  }

  /** No arriving request brings its own voucher number for k. */
  predicate NoManualNumbers(run: seq<Event>, k: PeriodKey) {
    forall i :: 0 <= i < |run| && run[i].Arrive? && run[i].req.CreateDraft?
                && PeriodKey(run[i].req.entity, run[i].req.book, run[i].req.period) == k
                ==> run[i].req.voucherNo == ""
  }

  lemma {:induction false} RunKeepsSequence(periods: map<PeriodKey, PeriodStatus>, run: seq<Event>, k: PeriodKey)
    requires NoManualNumbers(run, k)
    ensures AllGenerated(Exec(Fresh(periods), run), k)
  {
    if run != [] {
      var n := |run| - 1;
      assert run[n] in run;
      RunKeepsSequence(periods, run[..n], k);
      var s := Exec(Fresh(periods), run[..n]);
      match run[n]
      case Arrive(req) =>
      case Turn(i) => if i < |s.tasks| { TurnKeepsSequence(s, k, i); }
    }
  }

  /**
   Under any interleaving of counting and inserting, and any voids, the generated voucher numbers of a
   period are 1 to n, in insertion order, n being the number of its rows.
   */
  lemma {:induction false} GeneratedNumbersHaveNoGaps(periods: map<PeriodKey, PeriodStatus>, run: seq<Event>,
                                                      k: PeriodKey)
    requires NoManualNumbers(run, k)
    ensures var es := Exec(Fresh(periods), run).db.entries;
            && |Vouchers(es, k)| == CountKey(es, k)
            && forall j :: 0 <= j < CountKey(es, k) ==> Vouchers(es, k)[j] == VoucherNo(k.period, j + 1)
  {
    RunKeepsSequence(periods, run, k);
    VouchersCount(Exec(Fresh(periods), run).db.entries, k);
  }

  // ---- Chosen numbers ----

  /** The number that would be generated next is already in use. */
  predicate Jammed(db: DB, k: PeriodKey) {
    VoucherTaken(db.entries, k, NextVoucherNo(db, k))
  }

  predicate GeneratesFor(req: Request, k: PeriodKey) {
    req.CreateDraft? && PeriodKey(req.entity, req.book, req.period) == k ==> req.voucherNo == ""
  }

  /** One row more, under a number of the period's own that was free. */
  ghost predicate AddsGenerated(db: DB, db': DB, k: PeriodKey) {
    && |db'.entries| == |db.entries| + 1
    && SameRows(db.entries, db'.entries[..|db.entries|])
    && var e := db'.entries[|db.entries|];
       && !VoucherTaken(db.entries, KeyOf(e), e.voucherNo)
       && (KeyOf(e) == k ==> e.voucherNo == NextVoucherNo(db, k))
  }

  lemma InsertAdds(db: DB, e: Entry, k: PeriodKey)
    requires KeyOf(e) == k ==> e.voucherNo == NextVoucherNo(db, k)
    ensures var db' := InsertEntry(db, e).0; db' == db || AddsGenerated(db, db', k)
  {
    assert (db.entries + [e])[..|db.entries|] == db.entries;
  }

  lemma ApproveAdds(db: DB, entity: string, id: Id, k: PeriodKey)
    ensures var db' := ApproveCall(db, entity, id).0; db' == db || AddsGenerated(db, db', k)
  {
    if FindInvoice(db, entity, id).Some? {
      var inv := db.invoices[id];
      var draft := InvoiceDraft(inv, id, NextVoucherNo(db, InvoiceKey(inv)));
      assert (db.entries + [draft])[..|db.entries|] == db.entries;
    }
  }

  lemma VoidAdds(db: DB, entity: string, id: Id, k: PeriodKey)
    ensures var db' := VoidCall(db, entity, id).0;
            SameRows(db.entries, db'.entries) || AddsGenerated(db, db', k)
  {
    if FindEntry(db, entity, id).Some? {
      var e := db.entries[id];
      var rev := Reversal(e, NextVoucherNo(db, KeyOf(e)), Posted);
      var es' := (db.entries + [rev])[id := e.(status := Voided)];
      assert SameRows(db.entries, es'[..|db.entries|]);
    }
  }

  lemma ApplyAdds(db: DB, req: Request, k: PeriodKey)
    requires GeneratesFor(req, k)
    ensures var db' := Apply(db, req).0;
            SameRows(db.entries, db'.entries) || AddsGenerated(db, db', k)
  {
    match req
    case CreateDraft(entity, book, period, voucherNo, source, lines) =>
      var v := if voucherNo == "" then NextVoucherNo(db, PeriodKey(entity, book, period)) else voucherNo;
      InsertAdds(db, DraftEntry(entity, book, period, v, source, lines), k);
    case UpdateDraft(entity, id, source, lines) => UpdateDraftNeverSucceeds(db, entity, id, source, lines);
    case Approve(entity, id) => ApproveAdds(db, entity, id, k);
    case Void(entity, id) => VoidAdds(db, entity, id, k);
    case _ =>
  }

  /** While a period is jammed no call that takes a generated number adds a row to it. */
  lemma {:induction false} ApplyWhenJammed(db: DB, req: Request, k: PeriodKey)
    requires Jammed(db, k) && GeneratesFor(req, k)
    ensures Vouchers(Apply(db, req).0.entries, k) == Vouchers(db.entries, k)
    ensures CountKey(Apply(db, req).0.entries, k) == CountKey(db.entries, k)
  {
    var db' := Apply(db, req).0;
    ApplyAdds(db, req, k);
    GrowVouchers(db.entries, db'.entries, k);
    VouchersCount(db.entries, k);
    VouchersCount(db'.entries, k);
  }

  /**
   Between calls that do not overlap a jam is permanent: no later call that takes a generated number adds a row
   to the period, reversals included.
   */
  lemma {:induction false} JamIsPermanent(db: DB, history: seq<Request>, k: PeriodKey)
    requires Jammed(db, k)
    requires forall req | req in history :: GeneratesFor(req, k)
    ensures Vouchers(ApplyAll(db, history).entries, k) == Vouchers(db.entries, k)
    ensures Jammed(ApplyAll(db, history), k)
  {
    if history != [] {
      var n := |history| - 1;
      JamIsPermanent(db, history[..n], k);
      var mid := ApplyAll(db, history[..n]);
      ApplyWhenJammed(mid, history[n], k);
      TakenIsVoucher(mid.entries, k, NextVoucherNo(mid, k));
      TakenIsVoucher(ApplyAll(db, history).entries, k, NextVoucherNo(mid, k));
    }
  }

  // ---- Which chosen numbers jam a period ----

  predicate AheadBy(es: seq<Entry>, k: PeriodKey, m: nat) {
    m > CountKey(es, k) && VoucherNo(k.period, m) in Vouchers(es, k)
  }

  /** Some row has a number that counting has not reached yet. */
  ghost predicate Ahead(es: seq<Entry>, k: PeriodKey) {
    exists m: nat :: AheadBy(es, k, m)
  }

  lemma JammedIsAhead(db: DB, k: PeriodKey)
    requires Jammed(db, k)
    ensures Ahead(db.entries, k)
  {
    TakenIsVoucher(db.entries, k, NextVoucherNo(db, k));
    assert AheadBy(db.entries, k, CountKey(db.entries, k) + 1);
  }

  lemma OneMoreVoucher(es: seq<Entry>, es': seq<Entry>, k: PeriodKey)
    requires |es'| == |es| + 1 && SameRows(es, es'[..|es|])
    ensures Vouchers(es', k) == Vouchers(es, k) + if KeyOf(es'[|es|]) == k then [es'[|es|].voucherNo] else []
    ensures CountKey(es', k) == CountKey(es, k) + if KeyOf(es'[|es|]) == k then 1 else 0
  {
    SameRowsSameVouchers(es, es'[..|es|], k);
  }

  lemma BehindLasts(es: seq<Entry>, es': seq<Entry>, k: PeriodKey)
    requires Vouchers(es', k) == Vouchers(es, k) && CountKey(es', k) == CountKey(es, k) && !Ahead(es, k)
    ensures !Ahead(es', k)
  {
    if m: nat :| AheadBy(es', k, m) {
      assert AheadBy(es, k, m);
    }
  }

  /** A row added to k puts it ahead exactly if its number is printed for a count beyond the next. */
  lemma AddedRowAhead(es: seq<Entry>, es': seq<Entry>, k: PeriodKey)
    requires |es'| == |es| + 1 && SameRows(es, es'[..|es|]) && KeyOf(es'[|es|]) == k && !Ahead(es, k)
    ensures Ahead(es', k)
            <==> exists m: nat :: m > CountKey(es, k) + 1 && es'[|es|].voucherNo == VoucherNo(k.period, m)
  {
    var v := es'[|es|].voucherNo;
    OneMoreVoucher(es, es', k);
    if Ahead(es', k) {
      var m: nat :| AheadBy(es', k, m);
      assert !AheadBy(es, k, m);
      assert v == VoucherNo(k.period, m);
    }
    if m: nat :| m > CountKey(es, k) + 1 && v == VoucherNo(k.period, m) {
      assert AheadBy(es', k, m);
    }
  }

  /** The chosen numbers that do harm, sooner or later. */
  lemma ChosenNumberAhead(es: seq<Entry>, e: Entry)
    requires !Ahead(es, KeyOf(e))
    ensures Ahead(es + [e], KeyOf(e))
            <==> exists m: nat :: m > CountKey(es, KeyOf(e)) + 1 && e.voucherNo == VoucherNo(e.period, m)
  {
    assert (es + [e])[..|es|] == es;
    AddedRowAhead(es, es + [e], KeyOf(e));
  }

  lemma ApplyKeepsBehind(db: DB, req: Request, k: PeriodKey)
    requires !Ahead(db.entries, k) && GeneratesFor(req, k)
    ensures !Ahead(Apply(db, req).0.entries, k)
  {
    var es, es' := db.entries, Apply(db, req).0.entries;
    ApplyAdds(db, req, k);
    if SameRows(es, es') {
      SameRowsSameVouchers(es, es', k);
      BehindLasts(es, es', k);
    } else if KeyOf(es'[|es|]) != k {
      OneMoreVoucher(es, es', k);
      BehindLasts(es, es', k);
    } else {
      AddedRowAhead(es, es', k);
      if m: nat :| m > CountKey(es, k) + 1 && es'[|es|].voucherNo == VoucherNo(k.period, m) {
        VoucherNoInjective(k.period, m, CountKey(es, k) + 1);
      }
    }
  }

  ghost predicate GeneratedHistory(history: seq<Request>, k: PeriodKey) {
    forall req | req in history :: GeneratesFor(req, k)
  }

  lemma {:induction false} BehindNeverJams(db: DB, history: seq<Request>, k: PeriodKey)
    requires !Ahead(db.entries, k) && GeneratedHistory(history, k)
    ensures !Ahead(ApplyAll(db, history).entries, k) && !Jammed(ApplyAll(db, history), k)
  {
    if history != [] {
      var n := |history| - 1;
      BehindNeverJams(db, history[..n], k);
      ApplyKeepsBehind(ApplyAll(db, history[..n]), history[n], k);
    }
    if Jammed(ApplyAll(db, history), k) {
      JammedIsAhead(ApplyAll(db, history), k);
    }
  }

  lemma {:induction false} ApplyAllFirst(db: DB, req: Request, history: seq<Request>)
    ensures ApplyAll(db, [req] + history) == ApplyAll(Apply(db, req).0, history)
  {
    if history == [] {
      assert [req] + [] == [req] && [req][..0] == [];
      assert ApplyAll(db, [req][..0]) == db;
    } else {
      var n := |history| - 1;
      assert ([req] + history)[..n + 1] == [req] + history[..n];
      ApplyAllFirst(db, req, history[..n]);
    }
  }

  predicate OpenFor(db: DB, k: PeriodKey) {
    !IsClosed(db, k) && (k.period == "" || ValidPeriod(k.period))
  }

  function GeneratedDraft(k: PeriodKey, lines: seq<Line>): Request {
    CreateDraft(k.entity, k.book, k.period, "", None, lines)
  }

  lemma GeneratedDraftLands(db: DB, k: PeriodKey, lines: seq<Line>)
    requires OpenFor(db, k) && lines != [] && Balanced(lines) && !Jammed(db, k)
    ensures var e := DraftEntry(k.entity, k.book, k.period, NextVoucherNo(db, k), None, lines);
            Apply(db, GeneratedDraft(k, lines)).0 == AddEntry(db, e)
  {
  }

  lemma RowGetsCloser(es: seq<Entry>, e: Entry, k: PeriodKey, m: nat)
    requires AheadBy(es, k, m) && KeyOf(e) == k && m != CountKey(es, k) + 1
    ensures AheadBy(es + [e], k, m) && CountKey(es + [e], k) == CountKey(es, k) + 1
  {
    assert (es + [e])[..|es|] == es;
    OneMoreVoucher(es, es + [e], k);
  }

  lemma DraftGetsCloser(db: DB, k: PeriodKey, m: nat, lines: seq<Line>)
    requires OpenFor(db, k) && lines != [] && Balanced(lines) && !Jammed(db, k) && AheadBy(db.entries, k, m)
    ensures var db1 := Apply(db, GeneratedDraft(k, lines)).0;
            OpenFor(db1, k) && AheadBy(db1.entries, k, m) && CountKey(db1.entries, k) == CountKey(db.entries, k) + 1
  {
    GeneratedDraftLands(db, k, lines);
    TakenIsVoucher(db.entries, k, NextVoucherNo(db, k));
    RowGetsCloser(db.entries, DraftEntry(k.entity, k.book, k.period, NextVoucherNo(db, k), None, lines), k, m);
  }

  lemma AllTheSame(req: Request, rest: seq<Request>)
    requires forall r | r in rest :: r == req
    ensures forall r | r in [req] + rest :: r == req
  {
  }

  /** Generated drafts count up to the number that is ahead, and then there is no next one. */
  lemma {:induction false} DraftsReachJam(db: DB, k: PeriodKey, m: nat, lines: seq<Line>)
    returns (history: seq<Request>)
    requires OpenFor(db, k) && lines != [] && Balanced(lines) && AheadBy(db.entries, k, m)
    ensures forall req | req in history :: req == GeneratedDraft(k, lines)
    ensures Jammed(ApplyAll(db, history), k)
    decreases m - CountKey(db.entries, k)
  {
    if Jammed(db, k) {
      history := [];
    } else {
      var req := GeneratedDraft(k, lines);
      DraftGetsCloser(db, k, m, lines);
      var rest := DraftsReachJam(Apply(db, req).0, k, m, lines);
      history := [req] + rest;
      ApplyAllFirst(db, req, rest);
      AllTheSame(req, rest);
    }
  }

  lemma ZeroBalances()
    ensures Balanced([Line("", "", DEBIT, 0, 0)])
  {
    SumSingle(Line("", "", DEBIT, 0, 0), LineDebit);
    SumSingle(Line("", "", DEBIT, 0, 0), LineCredit);
  }

  /**
   Calls that do not overlap can jam an open period by generated numbers alone if and only if some number is
   ahead of its count.
   */
  lemma JamsExactly(db: DB, k: PeriodKey)
    requires OpenFor(db, k)
    ensures Ahead(db.entries, k)
            <==> exists history :: GeneratedHistory(history, k) && Jammed(ApplyAll(db, history), k)
  {
    if Ahead(db.entries, k) {
      var m: nat :| AheadBy(db.entries, k, m);
      ZeroBalances();
      var history := DraftsReachJam(db, k, m, [Line("", "", DEBIT, 0, 0)]);
      assert GeneratedHistory(history, k);
    } else {
      forall history | GeneratedHistory(history, k) ensures !Jammed(ApplyAll(db, history), k) {
        BehindNeverJams(db, history, k);
      }
    }
  }

  /**
   Updating a draft never succeeds: the voided row keeps the voucher number its replacement asks for, so
   the draft is lost and nothing takes its place.
   */
  lemma UpdateDraftNeverSucceeds(db: DB, entity: string, id: Id, source: Option<Id>, lines: seq<Line>)
    ensures var (db', reply) := Apply(db, UpdateDraft(entity, id, source, lines));
            && reply.Err?
            && db' == if id < |db.entries| && db.entries[id].entity == entity && db.entries[id].status == Draft
                      then SetStatus(db, id, Voided) else db
  {
    if id < |db.entries| && db.entries[id].entity == entity && db.entries[id].status == Draft {
      var e := db.entries[id];
      var es' := SetStatus(db, id, Voided).entries;
      assert KeyOf(es'[id]) == KeyOf(e) && es'[id].voucherNo == e.voucherNo;
    }
  }
}
