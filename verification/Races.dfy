/** Voids that another request overtakes: what they do from every state in which it can happen. */
module Races {
  import opened Prelude
  import opened Ledger
  import opened Phases
  import opened Transitions
  import opened Histories
  import opened FrozenPeriods
  import opened Runs
  import Balance

  // ---- A void that comes late ----

  lemma PlainVoidReady(s: System, rs: set<Request>, mid: System, entity: string, id: Id)
    requires Leads(s, rs, mid) && Void(entity, id) in rs
    requires EntryAt(mid.db, id, Draft) && mid.db.entries[id].entity == entity
    requires !IsClosed(mid.db, KeyOf(mid.db.entries[id]))
    ensures Leads(s, rs, System(mid.db, mid.tasks + [VoidPlain(entity, id)]))
  {
    var db, seen := mid.db, VoidCheck(entity, id, mid.db.entries[id]);
    Arrives(s, rs, mid, Void(entity, id));
    LastSteps(s, rs, db, mid.tasks, Start(Void(entity, id)), db, seen);
    LastSteps(s, rs, db, mid.tasks, seen, db, VoidPlain(entity, id));
  }

  function LatelyVoided(db: DB, entity: string, id: Id): DB
    requires id < |db.entries| && |PostCall(db, entity, id).0.entries| == |db.entries|
  {
    SetStatus(PostCall(db, entity, id).0, id, Voided)
  }

  lemma LateVoidLands(db: DB, entity: string, id: Id)
    requires EntryAt(db, id, Draft) && PostCall(db, entity, id).1.Ok?
    ensures var posted := PostCall(db, entity, id).0;
            && PostCall(db, entity, id).1 == Ok(id) && |posted.entries| == |db.entries|
            && Advance(posted, VoidPlain(entity, id)) == (SetStatus(posted, id, Voided), Done(Ok(id)))
  {
    PostTouches(db, entity, id);
  }

  /**
   Whenever a draft can be posted, a void that read it just before leaves it voided without a reversal,
   while the invoice it came from stays posted.
   */
  lemma LateVoidLosesEntry(s: System, rs: set<Request>, mid: System, entity: string, id: Id)
    requires Leads(s, rs, mid) && Void(entity, id) in rs && Post(entity, id) in rs
    requires EntryAt(mid.db, id, Draft) && PostCall(mid.db, entity, id).1.Ok?
    ensures |PostCall(mid.db, entity, id).0.entries| == |mid.db.entries|
    ensures Leads(s, rs, System(LatelyVoided(mid.db, entity, id), mid.tasks + [Done(Ok(id)), Done(Ok(id))]))
  {
    var plain, done := VoidPlain(entity, id), Done(Ok(id));
    PostTouches(mid.db, entity, id);
    LateVoidLands(mid.db, entity, id);
    PlainVoidReady(s, rs, mid, entity, id);
    CallRuns(s, rs, System(mid.db, mid.tasks + [plain]), Post(entity, id));
    var posted := System(PostCall(mid.db, entity, id).0, mid.tasks + [plain] + [done]);
    assert posted.tasks[|mid.tasks| := done] == mid.tasks + [done, done];
    HopTo(s, rs, posted, Turn(|mid.tasks|), System(LatelyVoided(mid.db, entity, id), mid.tasks + [done, done]));
  }

  /** Nothing posted so far came from the approved invoice that this draft came from. */
  ghost predicate FirstFrom(db: DB, id: Id, inv: Id) {
    && id < |db.entries| && db.entries[id].source == Some(inv)
    && InvoiceAt(db, inv, Approved) && db.invoices[inv].entity == db.entries[id].entity
    && forall e :: !Witness(db, e, inv)
  }

  lemma LatelyVoidedIsUnlinked(db: DB, entity: string, id: Id, inv: Id)
    requires EntryAt(db, id, Draft) && PostCall(db, entity, id).1.Ok? && FirstFrom(db, id, inv)
    ensures |PostCall(db, entity, id).0.entries| == |db.entries| && !Linked(LatelyVoided(db, entity, id))
  {
    PostTouches(db, entity, id);
    var db' := LatelyVoided(db, entity, id);
    assert InvoiceAt(db', inv, InvoicePosted);
    forall e ensures !Witness(db', e, inv) {
      if Witness(db', e, inv) {
        assert Witness(db, e, inv);
      }
    }
  }

  /** So an approved invoice is posted without any posted entry left that came from it. */
  lemma LateVoidUnlinks(s: System, rs: set<Request>, mid: System, entity: string, id: Id, inv: Id)
    requires Leads(s, rs, mid) && Void(entity, id) in rs && Post(entity, id) in rs
    requires EntryAt(mid.db, id, Draft) && PostCall(mid.db, entity, id).1.Ok? && FirstFrom(mid.db, id, inv)
    ensures exists s' :: Leads(s, rs, s') && !Linked(s'.db)
  {
    LateVoidLosesEntry(s, rs, mid, entity, id);
    LatelyVoidedIsUnlinked(mid.db, entity, id, inv);
  }

  // ---- From an empty ledger ----

  predicate Approvable(periods: map<PeriodKey, PeriodStatus>, inv: Invoice, datePeriod: string) {
    && AcceptableInvoice(inv, true) && SoundAmounts(inv)
    && (inv.book == "" || !IsClosed(Fresh(periods).db, PeriodKey(inv.entity, inv.book, datePeriod)))
    && !IsClosed(Fresh(periods).db, InvoiceKey(inv))
  }

  function FirstApproved(periods: map<PeriodKey, PeriodStatus>, inv: Invoice): DB {
    DB([InvoiceDraft(inv, 0, VoucherNo(inv.period, 1))], [inv.(status := Approved)], periods)
  }

  lemma FirstInvoiceCreated(periods: map<PeriodKey, PeriodStatus>, inv: Invoice, datePeriod: string)
    requires Approvable(periods, inv, datePeriod)
    ensures Apply(Fresh(periods).db, CreateInvoice(inv, datePeriod, true))
            == (DB([], [inv.(status := Pending)], periods), Ok(0))
  {
    assert Fresh(periods).db.invoices + [inv.(status := Pending)] == [inv.(status := Pending)];
  }

  lemma FirstInvoiceApproved(periods: map<PeriodKey, PeriodStatus>, inv: Invoice, datePeriod: string)
    requires Approvable(periods, inv, datePeriod)
    ensures Apply(DB([], [inv.(status := Pending)], periods), Approve(inv.entity, 0))
            == (FirstApproved(periods, inv), Ok(0))
  {
    var db, pending := DB([], [inv.(status := Pending)], periods), inv.(status := Pending);
    var draft := InvoiceDraft(pending, 0, VoucherNo(inv.period, 1));
    Balance.InvoiceLinesBalance(pending);
    assert draft == InvoiceDraft(inv, 0, VoucherNo(inv.period, 1));
    assert NextVoucherNo(db, InvoiceKey(inv)) == VoucherNo(inv.period, 1);
    assert db.entries + [draft] == [draft] && [pending][0 := inv.(status := Approved)] == [inv.(status := Approved)];
  }

  lemma FirstDraftPosts(periods: map<PeriodKey, PeriodStatus>, inv: Invoice, datePeriod: string)
    requires Approvable(periods, inv, datePeriod)
    ensures PostCall(FirstApproved(periods, inv), inv.entity, 0).1.Ok?
    ensures FirstFrom(FirstApproved(periods, inv), 0, 0)
  {
    Balance.InvoiceLinesBalance(inv);
  }

  /** This takes four requests: create an invoice, approve it, post its draft, and void that draft. */
  lemma FourRequestsUnlink(periods: map<PeriodKey, PeriodStatus>, inv: Invoice, datePeriod: string)
    requires Approvable(periods, inv, datePeriod)
    ensures exists s' :: Leads(Fresh(periods), { CreateInvoice(inv, datePeriod, true), Approve(inv.entity, 0),
                                                 Post(inv.entity, 0), Void(inv.entity, 0) }, s')
                         && !Linked(s'.db)
  {
    var s0, create, approve := Fresh(periods), CreateInvoice(inv, datePeriod, true), Approve(inv.entity, 0);
    var rs := { create, approve, Post(inv.entity, 0), Void(inv.entity, 0) };
    Stay(s0, rs);
    FirstInvoiceCreated(periods, inv, datePeriod);
    CallRuns(s0, rs, s0, create);
    var s1 := System(DB([], [inv.(status := Pending)], periods), s0.tasks + [Done(Ok(0))]);
    FirstInvoiceApproved(periods, inv, datePeriod);
    CallRuns(s0, rs, s1, approve);
    var s2 := System(FirstApproved(periods, inv), s1.tasks + [Done(Ok(0))]);
    FirstDraftPosts(periods, inv, datePeriod);
    LateVoidUnlinks(s0, rs, s2, inv.entity, 0, 0);
  }

  // ---- A void that passed its period check ----

  /** The transaction of a void looks at the journal only. */
  lemma VoidLands(db: DB, db1: DB, entity: string, id: Id)
    requires EntryAt(db, id, Posted) && VoidCall(db, entity, id).1.Ok?
    requires db1.entries == db.entries
    ensures Advance(db1, PendingVoid(db, entity, id))
            == (db1.(entries := VoidCall(db, entity, id).0.entries), Done(Ok(id)))
  {
  }

  lemma CloseThenLock(db: DB, k: PeriodKey)
    requires CloseCall(db, k).1.Ok?
    ensures CloseCall(db, k) == (db.(periods := db.periods[k := Closed]), Ok(0))
    ensures Apply(db.(periods := db.periods[k := Closed]), Lock(k)) == (db.(periods := db.periods[k := Locked]), Ok(0))
  {
    assert db.periods[k := Closing][k := Closed] == db.periods[k := Closed];
    assert db.periods[k := Closed][k := Locked] == db.periods[k := Locked];
  }

  /** Beside what is in flight the period is closed and then locked. */
  lemma LockedMeanwhile(s: System, rs: set<Request>, mid: System, k: PeriodKey)
    requires Leads(s, rs, mid) && CloseCall(mid.db, k).1.Ok? && Close(k) in rs && Lock(k) in rs
    ensures Leads(s, rs, System(mid.db.(periods := mid.db.periods[k := Locked]),
                                mid.tasks + [Done(Ok(0)), Done(Ok(0))]))
  {
    var closed := mid.db.(periods := mid.db.periods[k := Closed]);
    CloseThenLock(mid.db, k);
    CallRuns(s, rs, mid, Close(k));
    CallRuns(s, rs, System(closed, mid.tasks + [Done(Ok(0))]), Lock(k));
    assert mid.tasks + [Done(Ok(0))] + [Done(Ok(0))] == mid.tasks + [Done(Ok(0)), Done(Ok(0))];
  }

  /**
   Whenever a posted entry could be voided and its period closed, a void that passed its period check first
   is still live once the period has been closed and locked, and lands.
   */
  lemma LockedPeriodStillVoided(s: System, rs: set<Request>, mid: System, entity: string, id: Id)
    requires Leads(s, rs, mid) && EntryAt(mid.db, id, Posted) && VoidCall(mid.db, entity, id).1.Ok?
    requires CloseCall(mid.db, KeyOf(mid.db.entries[id])).1.Ok?
    requires { Void(entity, id), Close(KeyOf(mid.db.entries[id])), Lock(KeyOf(mid.db.entries[id])) } <= rs
    ensures var k := KeyOf(mid.db.entries[id]);
            var locked := mid.db.(periods := mid.db.periods[k := Locked]);
            var commit := PendingVoid(mid.db, entity, id);
            var s' := System(locked, mid.tasks + [commit, Done(Ok(0)), Done(Ok(0))]);
            && Leads(s, rs, s') && IsLocked(s'.db, k) && Live(s'.db, k, commit)
            && Next(s', Turn(|mid.tasks|)).db == locked.(entries := VoidCall(mid.db, entity, id).0.entries)
  {
    var k, commit := KeyOf(mid.db.entries[id]), PendingVoid(mid.db, entity, id);
    VoidReadyToCommit(s, rs, mid, entity, id);
    LockedMeanwhile(s, rs, System(mid.db, mid.tasks + [commit]), k);
    assert mid.tasks + [commit] + [Done(Ok(0)), Done(Ok(0))] == mid.tasks + [commit, Done(Ok(0)), Done(Ok(0))];
    VoidLands(mid.db, mid.db.(periods := mid.db.periods[k := Locked]), entity, id);
  }
}
