/**
 Jammed periods under requests that overlap: which states can be jammed by generated numbers, and which step
 still adds a row to a jammed period.
 */
module Jams {
  import opened Prelude
  import opened Ledger
  import opened Phases
  import opened Vouchers
  import opened FrozenPeriods
  import opened Runs
  import Balance
  import Transitions

  // ---- Numbers that do no harm ----

  /** v is not printed for any count beyond the next one. */
  ghost predicate Behind(es: seq<Entry>, k: PeriodKey, v: string) {
    forall m: nat :: m > CountKey(es, k) + 1 ==> v != VoucherNo(k.period, m)
  }

  lemma NextIsBehind(db: DB, k: PeriodKey)
    ensures Behind(db.entries, k, NextVoucherNo(db, k))
  {
    forall m: nat | m > CountKey(db.entries, k) + 1 ensures NextVoucherNo(db, k) != VoucherNo(k.period, m) {
      if NextVoucherNo(db, k) == VoucherNo(k.period, m) {
        VoucherNoInjective(k.period, CountKey(db.entries, k) + 1, m);
      }
    }
  }

  lemma BehindStays(es: seq<Entry>, es': seq<Entry>, k: PeriodKey, v: string)
    requires Behind(es, k, v) && CountKey(es, k) <= CountKey(es', k)
    ensures Behind(es', k, v)
  {
  }

  /** A number that a transaction carries was drawn from a count. */
  ghost predicate Drawn(db: DB, k: PeriodKey, t: Task) {
    match t
    case ReverseCommit(_, _, seen, v) => KeyOf(seen) == k ==> Behind(db.entries, k, v)
    case ApproveCommit(_, id, v) =>
      id < |db.invoices| && InvoiceKey(db.invoices[id]) == k ==> Behind(db.entries, k, v)
    case _ => true
  }

  /** A number that a creation brings for k is behind, or the creation will be refused. */
  ghost predicate Harmless(db: DB, k: PeriodKey, t: Task) {
    match t
    case Start(req) =>
      req.CreateDraft? && PeriodKey(req.entity, req.book, req.period) == k
      ==> req.voucherNo == "" || Behind(db.entries, k, req.voucherNo) || !Balance.Ready(req.lines)
    case DraftCheck(e) => KeyOf(e) == k ==> Behind(db.entries, k, e.voucherNo) || !Balanced(e.lines)
    case InsertHeader(e) =>
      KeyOf(e) == k ==> Behind(db.entries, k, e.voucherNo) || VoucherTaken(db.entries, k, e.voucherNo)
    case _ => true
  }

  ghost predicate AllDrawn(s: System, k: PeriodKey) {
    forall i :: 0 <= i < |s.tasks| ==> Drawn(s.db, k, s.tasks[i])
  }

  /** Some row, or some creation in flight that can still write it, has a number ahead of the count. */
  ghost predicate Primed(s: System, k: PeriodKey) {
    Ahead(s.db.entries, k) || exists i :: 0 <= i < |s.tasks| && !Harmless(s.db, k, s.tasks[i])
  }

  // ---- What a step keeps ----

  lemma DrawnStays(db: DB, db': DB, k: PeriodKey, t: Task)
    requires Rooted(db, t) && Drawn(db, k, t) && CountKey(db.entries, k) <= CountKey(db'.entries, k)
    requires SameInvoices(db.invoices, db'.invoices)
    ensures Drawn(db', k, t)
  {
    if t.ReverseCommit? || t.ApproveCommit? {
      if Behind(db.entries, k, t.voucherNo) {
        BehindStays(db.entries, db'.entries, k, t.voucherNo);
      }
    }
  }

  lemma NextDrawn(db: DB, k: PeriodKey, t: Task)
    requires Rooted(db, t)
    ensures var (db', t') := Advance(db, t);
            (t'.ReverseCommit? || t'.ApproveCommit?) ==> db' == db && Drawn(db, k, t')
  {
    if t.Start? {
      Balance.BeginReceives(db, t.req);
    } else if t.ReverseNumber? {
      NextIsBehind(db, KeyOf(t.seen));
    } else if t.ApproveNumber? {
      NextIsBehind(db, t.key);
    }
  }

  lemma HarmlessDraftStays(db: DB, db': DB, k: PeriodKey, t: Task)
    requires t.Start? || t.DraftCheck?
    requires Harmless(db, k, t) && CountKey(db.entries, k) <= CountKey(db'.entries, k)
    ensures Harmless(db', k, t)
  {
    if t.Start? && t.req.CreateDraft? && Behind(db.entries, k, t.req.voucherNo) {
      BehindStays(db.entries, db'.entries, k, t.req.voucherNo);
    } else if t.DraftCheck? && Behind(db.entries, k, t.entry.voucherNo) {
      BehindStays(db.entries, db'.entries, k, t.entry.voucherNo);
    }
  }

  lemma HarmlessHeaderStays(db: DB, db': DB, k: PeriodKey, e: Entry)
    requires Harmless(db, k, InsertHeader(e)) && CountKey(db.entries, k) <= CountKey(db'.entries, k)
    requires RowsStay(db.entries, db'.entries)
    ensures Harmless(db', k, InsertHeader(e))
  {
    if Behind(db.entries, k, e.voucherNo) {
      BehindStays(db.entries, db'.entries, k, e.voucherNo);
    } else if KeyOf(e) == k {
      Balance.TakenLasts(db.entries, db'.entries, k, e.voucherNo);
    }
  }

  lemma HarmlessStays(db: DB, db': DB, k: PeriodKey, t: Task)
    requires Harmless(db, k, t) && CountKey(db.entries, k) <= CountKey(db'.entries, k)
    requires RowsStay(db.entries, db'.entries)
    ensures Harmless(db', k, t)
  {
    if t.Start? || t.DraftCheck? {
      HarmlessDraftStays(db, db', k, t);
    } else if t.InsertHeader? {
      HarmlessHeaderStays(db, db', k, t.entry);
    }
  }

  lemma BeginHarmless(db: DB, k: PeriodKey, req: Request)
    requires Harmless(db, k, Start(req))
    ensures Harmless(db, k, Begin(db, req).1)
  {
    Balance.BeginReceives(db, req);
    if req.CreateDraft? {
      NextIsBehind(db, PeriodKey(req.entity, req.book, req.period));
    }
  }

  lemma NextHarmless(db: DB, k: PeriodKey, t: Task)
    requires Rooted(db, t) && Harmless(db, k, t) && !t.Start?
    ensures Advance(db, t).1.DraftCheck? || Advance(db, t).1.InsertHeader? ==> Advance(db, t).0 == db
    ensures !Advance(db, t).1.Start?
    ensures Harmless(db, k, Advance(db, t).1)
  {
  }

  /** What a step inserts for k has a number that is behind. */
  lemma InsertedIsBehind(db: DB, k: PeriodKey, t: Task)
    requires Rooted(db, t) && Drawn(db, k, t) && Harmless(db, k, t)
    ensures var es' := Advance(db, t).0.entries;
            |es'| == |db.entries| + 1 && KeyOf(es'[|db.entries|]) == k
            ==> Behind(db.entries, k, es'[|db.entries|].voucherNo)
  {
    if !WritesJournal(t) {
      OtherStepsLeaveJournal(db, t);
    } else if t.UpdateVoid? || t.VoidPlain? {
      VoidSteps(db, t);
    } else if t.PostCommit? {
      PostStep(db, t);
    } else if t.ReverseCommit? {
      ReverseStep(db, t);
    } else if t.ApproveCommit? {
      ApproveStep(db, t);
    }
  }

  lemma {:induction false} RowsKeepBehind(es: seq<Entry>, es': seq<Entry>, k: PeriodKey)
    requires !Ahead(es, k) && RowsGrow(es, es')
    requires |es'| == |es| + 1 && KeyOf(es'[|es|]) == k ==> Behind(es, k, es'[|es|].voucherNo)
    ensures !Ahead(es', k) && CountKey(es, k) <= CountKey(es', k)
  {
    GrowVouchers(es, es', k);
    if SameRows(es, es') {
      SameRowsSameVouchers(es, es', k);
      BehindLasts(es, es', k);
    } else if KeyOf(es'[|es|]) != k {
      OneMoreVoucher(es, es', k);
      BehindLasts(es, es', k);
    } else {
      AddedRowAhead(es, es', k);
    }
  }

  lemma StepKeepsBehind(db: DB, k: PeriodKey, t: Task)
    requires Rooted(db, t) && Drawn(db, k, t) && Harmless(db, k, t) && !Ahead(db.entries, k)
    ensures !Ahead(Advance(db, t).0.entries, k)
  {
    AdvanceGrowsRows(db, t);
    InsertedIsBehind(db, k, t);
    RowsKeepBehind(db.entries, Advance(db, t).0.entries, k);
  }

  lemma StepCounts(db: DB, k: PeriodKey, t: Task)
    ensures CountKey(db.entries, k) <= CountKey(Advance(db, t).0.entries, k)
    ensures RowsStay(db.entries, Advance(db, t).0.entries)
    ensures SameInvoices(db.invoices, Advance(db, t).0.invoices)
  {
    AdvanceGrowsRows(db, t);
    GrowVouchers(db.entries, Advance(db, t).0.entries, k);
    GrowthKeepsRows(db.entries, Advance(db, t).0.entries);
    InvoiceRowsLast(db, t);
  }

  lemma TurnKeepsDrawn(s: System, i: nat, k: PeriodKey)
    requires RootedSystem(s) && AllDrawn(s, k) && i < |s.tasks|
    ensures AllDrawn(Next(s, Turn(i)), k)
  {
    var db, t := s.db, s.tasks[i];
    var (db', t') := Advance(db, t);
    StepCounts(db, k, t);
    NextDrawn(db, k, t);
    forall j | 0 <= j < |s.tasks| && j != i ensures Drawn(db', k, s.tasks[j]) {
      DrawnStays(db, db', k, s.tasks[j]);
    }
  }

  /** In every reachable state, for every period. */
  lemma {:induction false} ReachableIsDrawn(periods: map<PeriodKey, PeriodStatus>, run: seq<Event>, k: PeriodKey)
    ensures RootedSystem(Exec(Fresh(periods), run)) && AllDrawn(Exec(Fresh(periods), run), k)
  {
    ReachableIsRooted(periods, run);
    if run != [] {
      var n := |run| - 1;
      ReachableIsDrawn(periods, run[..n], k);
      var s := Exec(Fresh(periods), run[..n]);
      if run[n].Turn? && run[n].i < |s.tasks| {
        TurnKeepsDrawn(s, run[n].i, k);
      }
    }
  }

  lemma OwnStepHarmless(db: DB, k: PeriodKey, t: Task)
    requires Rooted(db, t) && Harmless(db, k, t)
    ensures Harmless(Advance(db, t).0, k, Advance(db, t).1)
  {
    StepCounts(db, k, t);
    if t.Start? {
      BeginHarmless(db, k, t.req);
      HarmlessStays(db, Advance(db, t).0, k, Begin(db, t.req).1);
    } else {
      NextHarmless(db, k, t);
    }
  }

  lemma TurnKeepsUnprimed(s: System, i: nat, k: PeriodKey)
    requires RootedSystem(s) && AllDrawn(s, k) && !Primed(s, k) && i < |s.tasks|
    ensures !Primed(Next(s, Turn(i)), k)
  {
    var db, t := s.db, s.tasks[i];
    var (db', t') := Advance(db, t);
    StepKeepsBehind(db, k, t);
    StepCounts(db, k, t);
    OwnStepHarmless(db, k, t);
    forall j | 0 <= j < |s.tasks| && j != i ensures Harmless(db', k, s.tasks[j]) {
      HarmlessStays(db, db', k, s.tasks[j]);
    }
  }

  /** Whatever arrives brings no number for k that was ahead of the count at the start. */
  ghost predicate HarmlessRun(db: DB, run: seq<Event>, k: PeriodKey) {
    forall i :: 0 <= i < |run| && run[i].Arrive? ==> Harmless(db, k, Start(run[i].req))
  }

  lemma ArriveKeepsUnprimed(s: System, req: Request, k: PeriodKey)
    requires !Primed(s, k) && Harmless(s.db, k, Start(req))
    ensures !Primed(Next(s, Arrive(req)), k)
  {
  }

  /** From a state that is not primed, no interleaving of harmless arrivals ever jams the period. */
  lemma {:induction false} UnprimedNeverJams(s: System, run: seq<Event>, k: PeriodKey)
    requires RootedSystem(s) && AllDrawn(s, k) && !Primed(s, k) && HarmlessRun(s.db, run, k)
    ensures var s' := Exec(s, run);
            && RootedSystem(s') && AllDrawn(s', k) && !Primed(s', k) && !Jammed(s'.db, k)
            && CountKey(s.db.entries, k) <= CountKey(s'.db.entries, k) && RowsStay(s.db.entries, s'.db.entries)
  {
    if run != [] {
      var n := |run| - 1;
      UnprimedNeverJams(s, run[..n], k);
      var mid := Exec(s, run[..n]);
      match run[n]
      case Arrive(req) =>
        assert HarmlessRun(s.db, run, k) && run[n].Arrive?;
        HarmlessStays(s.db, mid.db, k, Start(req));
        ArriveKeepsUnprimed(mid, req, k);
      case Turn(i) =>
        if i < |mid.tasks| {
          TurnKeepsRooted(mid, i);
          TurnKeepsDrawn(mid, i, k);
          TurnKeepsUnprimed(mid, i, k);
          StepCounts(mid.db, k, mid.tasks[i]);
        }
    }
    if Jammed(Exec(s, run).db, k) {
      JammedIsAhead(Exec(s, run).db, k);
    }
  }

  // ---- Primed states can be jammed ----

  /** A creation with a number ahead, left to itself, writes it. */
  lemma HarmfulWrites(db: DB, k: PeriodKey, t: Task)
    requires OpenFor(db, k) && !Ahead(db.entries, k) && !Harmless(db, k, t)
    ensures Ahead(RunAlone(db, t).0.entries, k) && OpenFor(RunAlone(db, t).0, k)
  {
    match t
    case InsertHeader(e) =>
      HeaderAlone(db, e);
      ChosenNumberAhead(db.entries, e);
    case DraftCheck(e) =>
      HarmfulDraftWrites(db, k, e);
    case Start(req) =>
      var e := DraftEntry(req.entity, req.book, req.period, req.voucherNo, req.source, req.lines);
      StepAlone(db, t);
      HarmfulDraftWrites(db, k, e);
  }

  lemma AheadIsFree(es: seq<Entry>, k: PeriodKey, v: string)
    requires !Ahead(es, k) && !Behind(es, k, v)
    ensures !VoucherTaken(es, k, v)
  {
    var m: nat :| m > CountKey(es, k) + 1 && v == VoucherNo(k.period, m);
    TakenIsVoucher(es, k, v);
    assert !AheadBy(es, k, m);
  }

  lemma HarmfulDraftWrites(db: DB, k: PeriodKey, e: Entry)
    requires OpenFor(db, k) && !Ahead(db.entries, k)
    requires KeyOf(e) == k && !Behind(db.entries, k, e.voucherNo) && Balanced(e.lines)
    ensures Ahead(RunAlone(db, DraftCheck(e)).0.entries, k) && OpenFor(RunAlone(db, DraftCheck(e)).0, k)
  {
    StepAlone(db, DraftCheck(e));
    HeaderAlone(db, e);
    AheadIsFree(db.entries, k, e.voucherNo);
    ChosenNumberAhead(db.entries, e);
  }

  const ZERO: seq<Line> := [Line("", "", DEBIT, 0, 0)]

  /** Once a number is ahead, generated drafts reach it. */
  lemma AheadLeadsToJam(s: System, mid: System, k: PeriodKey) returns (s': System)
    requires Leads(s, {GeneratedDraft(k, ZERO)}, mid) && OpenFor(mid.db, k) && Ahead(mid.db.entries, k)
    ensures Leads(s, {GeneratedDraft(k, ZERO)}, s') && Jammed(s'.db, k)
  {
    var m: nat :| AheadBy(mid.db.entries, k, m);
    ZeroBalances();
    var history := DraftsReachJam(mid.db, k, m, ZERO);
    var done := HistoriesAreRuns(s, {GeneratedDraft(k, ZERO)}, mid, history);
    s' := System(ApplyAll(mid.db, history), mid.tasks + done);
  }

  lemma PrimedLeadsToJam(s: System, k: PeriodKey) returns (s': System)
    requires OpenFor(s.db, k) && Primed(s, k)
    ensures Leads(s, {GeneratedDraft(k, ZERO)}, s') && Jammed(s'.db, k)
  {
    var rs := {GeneratedDraft(k, ZERO)};
    Stay(s, rs);
    if Ahead(s.db.entries, k) {
      s' := AheadLeadsToJam(s, s, k);
    } else {
      var i :| 0 <= i < |s.tasks| && !Harmless(s.db, k, s.tasks[i]);
      HarmfulWrites(s.db, k, s.tasks[i]);
      TaskFinishes(s, rs, s, i);
      var (db', reply) := RunAlone(s.db, s.tasks[i]);
      s' := AheadLeadsToJam(s, System(db', s.tasks[i := Done(reply)]), k);
    }
  }

  ghost predicate ReachesHarmlessly(s: System, s': System, k: PeriodKey) {
    exists run :: HarmlessRun(s.db, run, k) && Exec(s, run) == s'
  }

  lemma LeadsIsHarmless(s: System, s': System, k: PeriodKey)
    requires Leads(s, {GeneratedDraft(k, ZERO)}, s')
    ensures ReachesHarmlessly(s, s', k)
  {
    var run :| Sends(run, {GeneratedDraft(k, ZERO)}) && Exec(s, run) == s';
    assert HarmlessRun(s.db, run, k);
  }

  /**
   From any reachable state, requests that overlap, and bring no number ahead themselves, can jam an open period
   if and only if some row or some creation in flight has a number ahead of the count.
   */
  lemma JamsAtOnceExactly(s: System, k: PeriodKey)
    requires OpenFor(s.db, k) && RootedSystem(s) && AllDrawn(s, k)
    ensures Primed(s, k) <==> exists s' :: ReachesHarmlessly(s, s', k) && Jammed(s'.db, k)
  {
    if Primed(s, k) {
      var s' := PrimedLeadsToJam(s, k);
      LeadsIsHarmless(s, s', k);
    } else {
      forall s' | ReachesHarmlessly(s, s', k) ensures !Jammed(s'.db, k) {
        var run :| HarmlessRun(s.db, run, k) && Exec(s, run) == s';
        UnprimedNeverJams(s, run, k);
      }
    }
  }

  // ---- Rows of a jammed period ----

  predicate CarriesNumber(t: Task) { t.InsertHeader? || t.ReverseCommit? || t.ApproveCommit? }

  function NumberOf(t: Task): string
    requires CarriesNumber(t)
  {
    if t.InsertHeader? then t.entry.voucherNo else t.voucherNo
  }

  /** The step can write a row of k, and its number is free there. */
  predicate InsertsFor(db: DB, k: PeriodKey, t: Task) {
    match t
    case InsertHeader(e) => KeyOf(e) == k && !VoucherTaken(db.entries, k, e.voucherNo)
    case ReverseCommit(_, id, _, v) => CanVoid(db, k, id) && !VoucherTaken(db.entries, k, v)
    case ApproveCommit(_, id, v) => CanApprove(db, k, id) && !VoucherTaken(db.entries, k, v)
    case _ => false
  }

  lemma InsertGrows(db: DB, k: PeriodKey, t: Task)
    requires Rooted(db, t) && InsertsFor(db, k, t)
    ensures var es' := Advance(db, t).0.entries;
            && |es'| == |db.entries| + 1
            && KeyOf(es'[|db.entries|]) == k && es'[|db.entries|].voucherNo == NumberOf(t)
  {
    if t.ApproveCommit? {
      Balance.InvoiceLinesBalance(db.invoices[t.id]);
    }
  }

  lemma OthersAddNone(db: DB, k: PeriodKey, t: Task)
    requires Rooted(db, t) && !InsertsFor(db, k, t)
    ensures var es' := Advance(db, t).0.entries;
            |es'| == |db.entries| || (|es'| == |db.entries| + 1 && KeyOf(es'[|db.entries|]) != k)
  {
    if !WritesJournal(t) {
      OtherStepsLeaveJournal(db, t);
    } else if t.UpdateVoid? || t.VoidPlain? {
      VoidSteps(db, t);
    } else if t.PostCommit? {
      PostStep(db, t);
    } else if t.ReverseCommit? {
      ReverseStep(db, t);
    } else if t.ApproveCommit? {
      ApproveStep(db, t);
    }
  }

  lemma StepVouchers(db: DB, k: PeriodKey, t: Task)
    requires Rooted(db, t)
    ensures var es, es' := db.entries, Advance(db, t).0.entries;
            && Vouchers.Vouchers(es', k)
               == Vouchers.Vouchers(es, k) + (if InsertsFor(db, k, t) then [NumberOf(t)] else [])
            && CountKey(es', k) == CountKey(es, k) + (if InsertsFor(db, k, t) then 1 else 0)
  {
    var es, es' := db.entries, Advance(db, t).0.entries;
    AdvanceGrowsRows(db, t);
    if InsertsFor(db, k, t) {
      InsertGrows(db, k, t);
      OneMoreVoucher(es, es', k);
    } else {
      OthersAddNone(db, k, t);
      if |es'| == |es| {
        SameRowsSameVouchers(es, es', k);
      } else {
        OneMoreVoucher(es, es', k);
      }
    }
  }

  /** Exactly these steps add a row to a period, jammed or not; to a jammed one, never under the next number. */
  lemma {:induction false} AddsRowExactly(db: DB, k: PeriodKey, t: Task)
    requires Rooted(db, t)
    ensures CountKey(Advance(db, t).0.entries, k) == CountKey(db.entries, k) + if InsertsFor(db, k, t) then 1 else 0
    ensures Jammed(db, k) && InsertsFor(db, k, t) ==> NumberOf(t) != NextVoucherNo(db, k)
  {
    StepVouchers(db, k, t);
  }

  // ---- A jam that ends ----

  function Numbered(db: DB, k: PeriodKey, ahead: nat): string {
    VoucherNo(k.period, CountKey(db.entries, k) + ahead)
  }

  lemma StepTaken(db: DB, k: PeriodKey, t: Task, v: string)
    requires Rooted(db, t)
    ensures VoucherTaken(Advance(db, t).0.entries, k, v)
            <==> VoucherTaken(db.entries, k, v) || (InsertsFor(db, k, t) && NumberOf(t) == v)
  {
    StepVouchers(db, k, t);
    TakenIsVoucher(db.entries, k, v);
    TakenIsVoucher(Advance(db, t).0.entries, k, v);
  }

  lemma NextAfter(db: DB, k: PeriodKey, t: Task)
    requires Rooted(db, t)
    ensures NextVoucherNo(Advance(db, t).0, k) == Numbered(db, k, if InsertsFor(db, k, t) then 2 else 1)
  {
    AddsRowExactly(db, k, t);
  }

  /** A step ends a jam if and only if it adds a row and neither the rows nor it has the number after that. */
  lemma JamEndsExactly(db: DB, k: PeriodKey, t: Task)
    requires Rooted(db, t) && Jammed(db, k)
    ensures !Jammed(Advance(db, t).0, k)
            <==> && InsertsFor(db, k, t) && NumberOf(t) != Numbered(db, k, 2)
                 && !VoucherTaken(db.entries, k, Numbered(db, k, 2))
  {
    AddsRowExactly(db, k, t);
    NextAfter(db, k, t);
    StepTaken(db, k, t, Numbered(db, k, if InsertsFor(db, k, t) then 2 else 1));
  }

  function DraftOf(k: PeriodKey, v: string): Entry {
    DraftEntry(k.entity, k.book, k.period, v, None, ZERO)
  }

  function NumberedDraft(k: PeriodKey, v: string): Request {
    CreateDraft(k.entity, k.book, k.period, v, None, ZERO)
  }

  lemma BehindMeansFree(db: DB, k: PeriodKey, ahead: nat)
    requires !Ahead(db.entries, k) && ahead >= 1
    ensures !VoucherTaken(db.entries, k, Numbered(db, k, ahead))
  {
    TakenIsVoucher(db.entries, k, Numbered(db, k, ahead));
    assert !AheadBy(db.entries, k, CountKey(db.entries, k) + ahead);
  }

  lemma TwoAhead(db: DB, k: PeriodKey)
    requires !Ahead(db.entries, k)
    ensures Numbered(db, k, 1) != Numbered(db, k, 2) && Numbered(db, k, 2) != Numbered(db, k, 3)
    ensures Numbered(db, k, 1) != Numbered(db, k, 3)
    ensures forall d | d in {1, 2, 3} :: !VoucherTaken(db.entries, k, Numbered(db, k, d))
  {
    var c := CountKey(db.entries, k);
    if Numbered(db, k, 1) == Numbered(db, k, 2) { VoucherNoInjective(k.period, c + 1, c + 2); }
    if Numbered(db, k, 2) == Numbered(db, k, 3) { VoucherNoInjective(k.period, c + 2, c + 3); }
    if Numbered(db, k, 1) == Numbered(db, k, 3) { VoucherNoInjective(k.period, c + 1, c + 3); }
    BehindMeansFree(db, k, 1);
    BehindMeansFree(db, k, 2);
    BehindMeansFree(db, k, 3);
  }

  lemma RowTaken(db: DB, k: PeriodKey, v: string, w: string)
    ensures var es' := AddEntry(db, DraftOf(k, v)).entries;
            && (VoucherTaken(es', k, w) <==> VoucherTaken(db.entries, k, w) || v == w)
            && CountKey(es', k) == CountKey(db.entries, k) + 1
  {
    var es' := AddEntry(db, DraftOf(k, v)).entries;
    assert es'[..|db.entries|] == db.entries;
    OneMoreVoucher(db.entries, es', k);
    TakenIsVoucher(db.entries, k, w);
    TakenIsVoucher(es', k, w);
  }

  /** The number after the next one jams the period, and the number it skipped, coming in late, ends the jam. */
  lemma SkippedNumber(db: DB, k: PeriodKey)
    requires !Ahead(db.entries, k)
    ensures var db1 := AddEntry(db, DraftOf(k, Numbered(db, k, 2)));
            && Jammed(db1, k) && !VoucherTaken(db1.entries, k, Numbered(db, k, 1))
            && !Jammed(AddEntry(db1, DraftOf(k, Numbered(db, k, 1))), k)
  {
    var first, second, third := Numbered(db, k, 1), Numbered(db, k, 2), Numbered(db, k, 3);
    var db1 := AddEntry(db, DraftOf(k, second));
    TwoAhead(db, k);
    RowTaken(db, k, second, first);
    RowTaken(db, k, second, second);
    RowTaken(db, k, second, third);
    RowTaken(db1, k, first, third);
    assert NextVoucherNo(AddEntry(db1, DraftOf(k, first)), k) == third;
  }

  /** A draft whose header is next, and whose number is free, is added whole. */
  lemma HeaderAdds(db: DB, k: PeriodKey, v: string)
    requires OpenFor(db, k) && !VoucherTaken(db.entries, k, v)
    ensures RunAlone(db, DraftCheck(DraftOf(k, v))) == (AddEntry(db, DraftOf(k, v)), Ok(|db.entries|))
  {
    ZeroBalances();
    StepAlone(db, DraftCheck(DraftOf(k, v)));
    HeaderAlone(db, DraftOf(k, v));
  }

  lemma NumberedDraftAdds(db: DB, k: PeriodKey, v: string)
    requires OpenFor(db, k) && !VoucherTaken(db.entries, k, v) && v != ""
    ensures Apply(db, NumberedDraft(k, v)) == (AddEntry(db, DraftOf(k, v)), Ok(|db.entries|))
  {
    ZeroBalances();
  }

  function Waiting(db: DB, k: PeriodKey): Task { DraftCheck(DraftOf(k, Numbered(db, k, 1))) }

  function Skipped(db: DB, k: PeriodKey): DB { AddEntry(db, DraftOf(k, Numbered(db, k, 2))) }

  lemma DraftWaits(db: DB, k: PeriodKey, rs: set<Request>)
    requires NumberedDraft(k, "") in rs
    ensures Leads(System(db, []), rs, System(db, [Waiting(db, k)]))
  {
    var s := System(db, []);
    Stay(s, rs);
    Arrives(s, rs, s, NumberedDraft(k, ""));
    LastSteps(s, rs, db, [], Start(NumberedDraft(k, "")), db, Waiting(db, k));
    assert [] + [Waiting(db, k)] == [Waiting(db, k)];
  }

  lemma NumberSkips(db: DB, k: PeriodKey, s: System, rs: set<Request>)
    requires OpenFor(db, k) && !Ahead(db.entries, k)
    requires NumberedDraft(k, Numbered(db, k, 2)) in rs && Leads(s, rs, System(db, [Waiting(db, k)]))
    ensures Leads(s, rs, System(Skipped(db, k), [Waiting(db, k), Done(Ok(|db.entries|))]))
  {
    BehindMeansFree(db, k, 2);
    NumberedDraftAdds(db, k, Numbered(db, k, 2));
    CallRuns(s, rs, System(db, [Waiting(db, k)]), NumberedDraft(k, Numbered(db, k, 2)));
    assert [Waiting(db, k)] + [Done(Ok(|db.entries|))] == [Waiting(db, k), Done(Ok(|db.entries|))];
  }

  lemma WaitingFinishes(db: DB, k: PeriodKey, t: Task)
    requires OpenFor(db, k) && !VoucherTaken(Skipped(db, k).entries, k, Numbered(db, k, 1))
    ensures var db1 := Skipped(db, k);
            Leads(System(db1, [Waiting(db, k), t]), {},
                  System(AddEntry(db1, DraftOf(k, Numbered(db, k, 1))), [Done(Ok(|db1.entries|)), t]))
  {
    var db1 := Skipped(db, k);
    var s := System(db1, [Waiting(db, k), t]);
    Stay(s, {});
    TaskFinishes(s, {}, s, 0);
    HeaderAdds(db1, k, Numbered(db, k, 1));
    assert s.tasks[0 := Done(Ok(|db1.entries|))] == [Done(Ok(|db1.entries|)), t];
  }

  /**
   A jam can end.  In every open period without a number ahead, let a draft draw the next number and wait, and a
   draft with the number after it come in: the period is jammed.  The waiting draft then gets in with the number
   it drew, no request arriving any more, and the period is not jammed.
   */
  lemma JamCanEnd(db: DB, k: PeriodKey) returns (jammed: System, freed: System)
    requires OpenFor(db, k) && !Ahead(db.entries, k)
    ensures Leads(System(db, []), {NumberedDraft(k, ""), NumberedDraft(k, Numbered(db, k, 2))}, jammed)
    ensures Jammed(jammed.db, k)
    ensures Leads(jammed, {}, freed) && !Jammed(freed.db, k)
  {
    var rs := {NumberedDraft(k, ""), NumberedDraft(k, Numbered(db, k, 2))};
    var db1 := Skipped(db, k);
    jammed := System(db1, [Waiting(db, k), Done(Ok(|db.entries|))]);
    freed := System(AddEntry(db1, DraftOf(k, Numbered(db, k, 1))), [Done(Ok(|db1.entries|)), Done(Ok(|db.entries|))]);
    SkippedNumber(db, k);
    DraftWaits(db, k, rs);
    NumberSkips(db, k, System(db, []), rs);
    WaitingFinishes(db, k, Done(Ok(|db.entries|)));
  }
}
