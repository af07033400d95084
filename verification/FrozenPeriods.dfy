/**
 When the journal of a locked period is frozen under requests that overlap: exactly when none of its drafts is
 left and nothing in flight has already passed the period check and can still write to it.
 */
module FrozenPeriods {
  import opened Prelude
  import opened Ledger
  import opened Phases
  import opened Transitions
  import opened Vouchers
  import Balance
  import Runs

  // ---- What a task has read ----

  predicate ReadRow(db: DB, entity: string, id: Id, seen: Entry) {
    id < |db.entries| && db.entries[id].entity == entity && SameRow(db.entries[id], seen)
  }

  predicate OwnRow(db: DB, entity: string, id: Id) {
    id < |db.entries| && db.entries[id].entity == entity
  }

  predicate OwnInvoice(db: DB, entity: string, id: Id) {
    id < |db.invoices| && db.invoices[id].entity == entity
  }

  /** What a task carries comes from rows that exist. */
  predicate Rooted(db: DB, t: Task) {
    match t
    case InsertLines(id, _) => id < |db.entries|
    case UpdateVoid(entity, id, seen, _, _) => ReadRow(db, entity, id, seen)
    case UpdateInsert(e) => VoucherTaken(db.entries, KeyOf(e), e.voucherNo)
    case PostCheck(entity, id, seen) => ReadRow(db, entity, id, seen)
    case PostCommit(entity, id) => OwnRow(db, entity, id)
    case VoidCheck(entity, id, seen) => ReadRow(db, entity, id, seen)
    case VoidPlain(entity, id) => OwnRow(db, entity, id)
    case ReverseNumber(entity, id, seen) => ReadRow(db, entity, id, seen)
    case ReverseCommit(entity, id, seen, _) => ReadRow(db, entity, id, seen)
    case ApproveCheck(entity, id, key) => OwnInvoice(db, entity, id) && key == InvoiceKey(db.invoices[id])
    case ApproveNumber(entity, id, key) => OwnInvoice(db, entity, id) && key == InvoiceKey(db.invoices[id])
    case ApproveCommit(entity, id, _) => OwnInvoice(db, entity, id)
    case _ => true
  }

  ghost predicate RootedSystem(s: System) {
    forall i :: 0 <= i < |s.tasks| ==> Rooted(s.db, s.tasks[i])
  }

  ghost predicate RowsStay(es: seq<Entry>, es': seq<Entry>) {
    |es| <= |es'| && forall id :: 0 <= id < |es| ==> SameRow(es[id], es'[id])
  }

  lemma GrowthKeepsRows(es: seq<Entry>, es': seq<Entry>)
    requires RowsGrow(es, es')
    ensures RowsStay(es, es')
  {
    forall id | 0 <= id < |es| ensures SameRow(es[id], es'[id]) {
      if !SameRows(es, es') {
        assert SameRow(es[id], es'[..|es|][id]);
      }
    }
  }

  lemma RootedLasts(db: DB, db': DB, t: Task)
    requires Rooted(db, t) && RowsStay(db.entries, db'.entries) && SameInvoices(db.invoices, db'.invoices)
    ensures Rooted(db', t)
  {
    if t.UpdateInsert? {
      Balance.TakenLasts(db.entries, db'.entries, KeyOf(t.entry), t.entry.voucherNo);
    }
  }

  lemma BeginIsRooted(db: DB, req: Request)
    ensures Rooted(db, Begin(db, req).1)
  {
  }

  /** The row an update has voided still holds the number its replacement will ask for. */
  lemma UpdateIsRooted(db: DB, t: Task)
    requires t.UpdateVoid? && Rooted(db, t) && RowsStay(db.entries, Advance(db, t).0.entries)
    ensures Rooted(Advance(db, t).0, Advance(db, t).1)
  {
    if Advance(db, t).1.UpdateInsert? {
      assert KeyOf(db.entries[t.id]) == KeyOf(t.seen) && db.entries[t.id].voucherNo == t.seen.voucherNo;
      Balance.TakenLasts(db.entries, Advance(db, t).0.entries, KeyOf(t.seen), t.seen.voucherNo);
    }
  }

  lemma WriteIsRooted(db: DB, t: Task)
    requires Rooted(db, t) && WritesJournal(t) && !t.UpdateVoid?
    ensures Rooted(Advance(db, t).0, Advance(db, t).1)
  {
  }

  lemma ReadIsRooted(db: DB, t: Task)
    requires Rooted(db, t) && !t.Start? && !WritesJournal(t)
    requires SameInvoices(db.invoices, Advance(db, t).0.invoices)
    ensures Rooted(Advance(db, t).0, Advance(db, t).1)
  {
    OtherStepsLeaveJournal(db, t);
  }

  lemma TurnKeepsRooted(s: System, i: nat)
    requires RootedSystem(s) && i < |s.tasks|
    ensures RootedSystem(Next(s, Turn(i)))
    ensures RowsStay(s.db.entries, Next(s, Turn(i)).db.entries)
    ensures SameInvoices(s.db.invoices, Next(s, Turn(i)).db.invoices)
  {
    var db, t := s.db, s.tasks[i];
    var db' := Advance(db, t).0;
    AdvanceGrowsRows(db, t);
    GrowthKeepsRows(db.entries, db'.entries);
    InvoiceRowsLast(db, t);
    forall j | 0 <= j < |s.tasks| ensures Rooted(db', Next(s, Turn(i)).tasks[j]) {
      if j != i {
        RootedLasts(db, db', s.tasks[j]);
      } else if t.Start? {
        BeginIsRooted(db, t.req);
        RootedLasts(db, db', Begin(db, t.req).1);
      } else if t.UpdateVoid? {
        UpdateIsRooted(db, t);
      } else {
        if WritesJournal(t) { WriteIsRooted(db, t); } else { ReadIsRooted(db, t); }
      }
    }
  }

  /** In every reachable state. */
  lemma {:induction false} ReachableIsRooted(periods: map<PeriodKey, PeriodStatus>, run: seq<Event>)
    ensures RootedSystem(Exec(Fresh(periods), run))
  {
    if run != [] {
      var n := |run| - 1;
      ReachableIsRooted(periods, run[..n]);
      var s := Exec(Fresh(periods), run[..n]);
      if run[n].Turn? && run[n].i < |s.tasks| {
        TurnKeepsRooted(s, run[n].i);
      }
    }
  }

  // ---- What can still write to a period ----

  predicate IsLocked(db: DB, k: PeriodKey) { k in db.periods && db.periods[k] == Locked }

  predicate CanVoid(db: DB, k: PeriodKey, id: Id) {
    id < |db.entries| && KeyOf(db.entries[id]) == k && db.entries[id].status != Voided
  }

  predicate CanApprove(db: DB, k: PeriodKey, id: Id) {
    && id < |db.invoices| && InvoiceKey(db.invoices[id]) == k
    && db.invoices[id].status == Pending && SoundAmounts(db.invoices[id])
  }

  /** Past its period check, with a write to period k that nothing refuses. */
  predicate Live(db: DB, k: PeriodKey, t: Task) {
    match t
    case InsertHeader(e) => KeyOf(e) == k && !VoucherTaken(db.entries, k, e.voucherNo)
    case InsertLines(id, rest) => rest != [] && id < |db.entries| && KeyOf(db.entries[id]) == k
    case UpdateVoid(_, id, _, _, _) => CanVoid(db, k, id)
    case PostCommit(_, id) => CanVoid(db, k, id) && db.entries[id].status == Draft
    case VoidPlain(_, id) => CanVoid(db, k, id)
    case ReverseNumber(_, id, _) => CanVoid(db, k, id) && !Jammed(db, k)
    case ReverseCommit(_, id, _, v) => CanVoid(db, k, id) && !VoucherTaken(db.entries, k, v)
    case ApproveNumber(_, id, _) => CanApprove(db, k, id) && !Jammed(db, k)
    case ApproveCommit(_, id, v) => CanApprove(db, k, id) && !VoucherTaken(db.entries, k, v)
    case _ => false
  }

  predicate NoDraft(db: DB, k: PeriodKey) {
    forall id :: 0 <= id < |db.entries| && KeyOf(db.entries[id]) == k ==> db.entries[id].status != Draft
  }

  ghost predicate Quiesced(s: System, k: PeriodKey) {
    NoDraft(s.db, k) && forall i :: 0 <= i < |s.tasks| ==> !Live(s.db, k, s.tasks[i])
  }

  /** No row of k is changed and none is added. */
  ghost predicate FrozenRows(es: seq<Entry>, es': seq<Entry>, k: PeriodKey) {
    && |es| <= |es'|
    && (forall id :: 0 <= id < |es| ==>
          KeyOf(es'[id]) == KeyOf(es[id]) && (KeyOf(es[id]) == k ==> es'[id] == es[id]))
    && (forall id :: |es| <= id < |es'| ==> KeyOf(es'[id]) != k)
  }

  lemma {:induction false} FrozenMeans(es: seq<Entry>, es': seq<Entry>, k: PeriodKey)
    requires FrozenRows(es, es', k)
    ensures EntriesOf(es', k) == EntriesOf(es, k) && PostedLines(es', k) == PostedLines(es, k)
    ensures Vouchers.Vouchers(es', k) == Vouchers.Vouchers(es, k) && CountKey(es', k) == CountKey(es, k)
    decreases |es'|
  {
    if |es'| > |es| {
      FrozenMeans(es, es'[..|es'| - 1], k);
    } else if es != [] {
      FrozenMeans(es[..|es| - 1], es'[..|es| - 1], k);
    }
  }

  lemma FrozenKeepsTaken(es: seq<Entry>, es': seq<Entry>, k: PeriodKey, v: string)
    requires FrozenRows(es, es', k)
    ensures VoucherTaken(es', k, v) <==> VoucherTaken(es, k, v)
  {
    FrozenMeans(es, es', k);
    TakenIsVoucher(es, k, v);
    TakenIsVoucher(es', k, v);
  }

  lemma FrozenKeepsJam(db: DB, db': DB, k: PeriodKey)
    requires FrozenRows(db.entries, db'.entries, k)
    ensures Jammed(db', k) <==> Jammed(db, k)
  {
    FrozenMeans(db.entries, db'.entries, k);
    FrozenKeepsTaken(db.entries, db'.entries, k, NextVoucherNo(db, k));
  }

  // ---- Quiesced periods stay so ----

  /** No invoice becomes pending again. */
  ghost predicate PendingsShrink(invs: seq<Invoice>, invs': seq<Invoice>) {
    SameInvoices(invs, invs')
    && forall i :: 0 <= i < |invs| && invs'[i].status == Pending ==> invs[i].status == Pending
  }

  lemma StepShrinksPendings(db: DB, t: Task)
    ensures PendingsShrink(db.invoices, Advance(db, t).0.invoices)
  {
    InvoiceRowsLast(db, t);
    StepMovesInvoices(db, t);
  }

  lemma BeginKeepsLock(db: DB, req: Request, k: PeriodKey)
    requires IsLocked(db, k)
    ensures IsLocked(Begin(db, req).0, k)
  {
  }

  lemma StepKeepsLock(db: DB, t: Task, k: PeriodKey)
    requires IsLocked(db, k)
    ensures IsLocked(Advance(db, t).0, k)
  {
    if t.Start? {
      BeginKeepsLock(db, t.req, k);
    } else if t.UpdateVoid? || t.VoidPlain? {
      VoidSteps(db, t);
    } else if t.PostCommit? {
      PostStep(db, t);
    } else if t.ReverseCommit? {
      ReverseStep(db, t);
    } else if t.ApproveCommit? {
      ApproveStep(db, t);
    }
  }

  lemma StaysQuiet(db: DB, db': DB, k: PeriodKey, t: Task)
    requires Rooted(db, t) && !Live(db, k, t)
    requires FrozenRows(db.entries, db'.entries, k) && PendingsShrink(db.invoices, db'.invoices)
    ensures !Live(db', k, t)
  {
    match t
    case InsertHeader(e) => FrozenKeepsTaken(db.entries, db'.entries, k, e.voucherNo);
    case ReverseCommit(_, _, _, v) => FrozenKeepsTaken(db.entries, db'.entries, k, v);
    case ApproveCommit(_, _, v) => FrozenKeepsTaken(db.entries, db'.entries, k, v);
    case ReverseNumber(_, _, _) => FrozenKeepsJam(db, db', k);
    case ApproveNumber(_, _, _) => FrozenKeepsJam(db, db', k);
    case _ =>
  }

  lemma AddedOutside(es: seq<Entry>, e: Entry, k: PeriodKey)
    requires KeyOf(e) != k
    ensures FrozenRows(es, es + [e], k)
  {
  }

  /** A task that is not live leaves the rows of k alone. */
  lemma QuietLeavesRows(db: DB, k: PeriodKey, t: Task)
    requires Rooted(db, t) && !Live(db, k, t)
    ensures FrozenRows(db.entries, Advance(db, t).0.entries, k)
  {
    if !WritesJournal(t) {
      OtherStepsLeaveJournal(db, t);
    } else if t.UpdateVoid? || t.VoidPlain? {
      VoidSteps(db, t);
    } else if t.PostCommit? {
      PostStep(db, t);
    } else if t.ReverseCommit? {
      ReverseStep(db, t);
    } else if t.ApproveCommit? {
      ApproveStep(db, t);
    } else if t.InsertHeader? && KeyOf(t.entry) != k {
      AddedOutside(db.entries, t.entry.(lines := []), k);
    }
  }

  /** And its next phase is not live either: the period check stops it, or the row or the number does. */
  lemma QuietGoesOn(db: DB, k: PeriodKey, t: Task)
    requires Rooted(db, t) && !Live(db, k, t) && IsLocked(db, k) && NoDraft(db, k)
    ensures !Live(Advance(db, t).0, k, Advance(db, t).1)
  {
    if t.Start? {
      BeginGoesOn(db, k, t.req);
    } else if t.DraftCheck? || t.PostCheck? || t.VoidCheck? || t.ApproveCheck? {
      CheckStops(db, k, t);
    } else if t.ReverseNumber? || t.ApproveNumber? {
      DrawGoesOn(db, k, t);
    }
  }

  lemma BeginGoesOn(db: DB, k: PeriodKey, req: Request)
    requires NoDraft(db, k)
    ensures !Live(Begin(db, req).0, k, Begin(db, req).1)
  {
  }

  /** What the period check is for. */
  lemma CheckStops(db: DB, k: PeriodKey, t: Task)
    requires t.DraftCheck? || t.PostCheck? || t.VoidCheck? || t.ApproveCheck?
    requires Rooted(db, t) && IsLocked(db, k)
    ensures !Live(Advance(db, t).0, k, Advance(db, t).1)
  {
  }

  lemma DrawGoesOn(db: DB, k: PeriodKey, t: Task)
    requires t.ReverseNumber? || t.ApproveNumber?
    requires Rooted(db, t) && !Live(db, k, t)
    ensures !Live(Advance(db, t).0, k, Advance(db, t).1)
  {
  }

  lemma TurnKeepsQuiet(s: System, i: nat, k: PeriodKey)
    requires RootedSystem(s) && IsLocked(s.db, k) && Quiesced(s, k) && i < |s.tasks|
    ensures var s' := Next(s, Turn(i));
            RootedSystem(s') && IsLocked(s'.db, k) && Quiesced(s', k) && FrozenRows(s.db.entries, s'.db.entries, k)
  {
    var db, t := s.db, s.tasks[i];
    var db' := Advance(db, t).0;
    TurnKeepsRooted(s, i);
    StepKeepsLock(db, t, k);
    QuietLeavesRows(db, k, t);
    StepShrinksPendings(db, t);
    QuietGoesOn(db, k, t);
    forall j | 0 <= j < |s.tasks| && j != i ensures !Live(db', k, s.tasks[j]) {
      StaysQuiet(db, db', k, s.tasks[j]);
    }
  }

  lemma FrozenTwice(a: seq<Entry>, b: seq<Entry>, c: seq<Entry>, k: PeriodKey)
    requires FrozenRows(a, b, k) && FrozenRows(b, c, k)
    ensures FrozenRows(a, c, k)
  {
  }

  /** From a quiesced locked period on, no interleaving whatever changes or adds a row of it. */
  lemma {:induction false} QuiescedForever(s: System, run: seq<Event>, k: PeriodKey)
    requires RootedSystem(s) && IsLocked(s.db, k) && Quiesced(s, k)
    ensures var s' := Exec(s, run);
            RootedSystem(s') && IsLocked(s'.db, k) && Quiesced(s', k) && FrozenRows(s.db.entries, s'.db.entries, k)
  {
    if run != [] {
      var n := |run| - 1;
      QuiescedForever(s, run[..n], k);
      var mid := Exec(s, run[..n]);
      if run[n].Turn? && run[n].i < |mid.tasks| {
        TurnKeepsQuiet(mid, run[n].i, k);
        FrozenTwice(s.db.entries, mid.db.entries, Next(mid, run[n]).db.entries, k);
      }
    }
  }

  /** So its trial balance does not move either. */
  lemma {:induction false} QuiescedTrialBalance(s: System, run: seq<Event>, k: PeriodKey)
    requires RootedSystem(s) && IsLocked(s.db, k) && Quiesced(s, k)
    ensures EntriesOf(Exec(s, run).db.entries, k) == EntriesOf(s.db.entries, k)
    ensures PostedLines(Exec(s, run).db.entries, k) == PostedLines(s.db.entries, k)
  {
    QuiescedForever(s, run, k);
    FrozenMeans(s.db.entries, Exec(s, run).db.entries, k);
  }

  // ---- What is not quiesced can still move ----

  /** A live task that writes in its next step changes or adds a row of k. */
  lemma LiveWrites(db: DB, k: PeriodKey, t: Task)
    requires Rooted(db, t) && Live(db, k, t) && WritesJournal(t)
    ensures !FrozenRows(db.entries, Advance(db, t).0.entries, k)
  {
    var es, es' := db.entries, Advance(db, t).0.entries;
    match t
    case InsertHeader(e) => assert es' == es + [e.(lines := [])] && KeyOf(es'[|es|]) == k;
    case InsertLines(id, rest) => assert |es'[id].lines| == |es[id].lines| + 1;
    case UpdateVoid(_, id, _, _, _) => assert es'[id].status == Voided;
    case PostCommit(_, id) => assert es'[id].status == Posted;
    case VoidPlain(_, id) => assert es'[id].status == Voided;
    case ReverseCommit(_, id, seen, v) => ReverseWrites(db, k, t);
    case ApproveCommit(_, id, v) => ApproveWrites(db, k, t);
  }

  lemma ReverseWrites(db: DB, k: PeriodKey, t: Task)
    requires t.ReverseCommit? && Rooted(db, t) && Live(db, k, t)
    ensures var es' := Advance(db, t).0.entries; t.id < |es'| && es'[t.id].status == Voided
  {
  }

  lemma ApproveWrites(db: DB, k: PeriodKey, t: Task)
    requires t.ApproveCommit? && Rooted(db, t) && Live(db, k, t)
    ensures var es' := Advance(db, t).0.entries; |es'| == |db.entries| + 1 && KeyOf(es'[|db.entries|]) == k
  {
    Balance.InvoiceLinesBalance(db.invoices[t.id]);
  }

  /** One that still has to draw its voucher number is live with the number it draws. */
  lemma LiveDraws(db: DB, k: PeriodKey, t: Task)
    requires Rooted(db, t) && Live(db, k, t) && !WritesJournal(t)
    ensures var (db', t') := Advance(db, t); db' == db && WritesJournal(t') && Live(db, k, t') && Rooted(db, t')
  {
  }

  ghost predicate Reaches(s: System, s': System) { exists run :: Exec(s, run) == s' }

  lemma LiveMoves(s: System, i: nat, k: PeriodKey)
    requires RootedSystem(s) && i < |s.tasks| && Live(s.db, k, s.tasks[i])
    ensures exists s' :: Reaches(s, s') && !FrozenRows(s.db.entries, s'.db.entries, k)
  {
    var s1 := Next(s, Turn(i));
    assert [Turn(i)][..0] == [] && Exec(s, [Turn(i)]) == s1;
    if WritesJournal(s.tasks[i]) {
      LiveWrites(s.db, k, s.tasks[i]);
    } else {
      LiveDraws(s.db, k, s.tasks[i]);
      LiveWrites(s.db, k, s1.tasks[i]);
      assert [Turn(i), Turn(i)][..1] == [Turn(i)];
      assert Exec(s, [Turn(i), Turn(i)]) == Next(s1, Turn(i));
    }
  }

  /** A draft of the period can be voided by updating it, which never asks for the period. */
  lemma DraftMoves(s: System, id: Id, k: PeriodKey)
    requires id < |s.db.entries| && KeyOf(s.db.entries[id]) == k && s.db.entries[id].status == Draft
    ensures exists s' :: Reaches(s, s') && !FrozenRows(s.db.entries, s'.db.entries, k)
  {
    var req := UpdateDraft(s.db.entries[id].entity, id, None, []);
    Runs.Stay(s, {req});
    Runs.CallRuns(s, {req}, s, req);
    UpdateDraftNeverSucceeds(s.db, s.db.entries[id].entity, id, None, []);
    var s' := System(Apply(s.db, req).0, s.tasks + [Done(Apply(s.db, req).1)]);
    assert s'.db.entries[id].status == Voided;
    assert Reaches(s, s');
  }

  /**
   From any reachable state, the journal of a locked period is frozen over every interleaving if and only if
   the period is quiesced.
   */
  lemma FrozenExactly(s: System, k: PeriodKey)
    requires RootedSystem(s) && IsLocked(s.db, k)
    ensures Quiesced(s, k) <==> forall s' :: Reaches(s, s') ==> FrozenRows(s.db.entries, s'.db.entries, k)
  {
    if Quiesced(s, k) {
      forall s' | Reaches(s, s') ensures FrozenRows(s.db.entries, s'.db.entries, k) {
        var run :| Exec(s, run) == s';
        QuiescedForever(s, run, k);
      }
    } else if !NoDraft(s.db, k) {
      var id :| 0 <= id < |s.db.entries| && KeyOf(s.db.entries[id]) == k && s.db.entries[id].status == Draft;
      DraftMoves(s, id, k);
    } else {
      var i :| 0 <= i < |s.tasks| && Live(s.db, k, s.tasks[i]);
      LiveMoves(s, i, k);
    }
  }
}
