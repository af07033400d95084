/** Status changes of invoices and entries under any interleaving: each happens at most once. */
module Transitions {
  import opened Prelude
  import opened Ledger
  import opened Phases
  import opened Balance

  // ---- Invoices ----

  predicate InvoiceAt(db: DB, id: Id, status: InvoiceStatus) {
    id < |db.invoices| && db.invoices[id].status == status
  }

  /** The one way an invoice is approved: with exactly one balanced draft for its gross amount. */
  ghost predicate ApprovedWithDraft(db: DB, db': DB, id: Id) {
    && id < |db.invoices|
    && var inv := db.invoices[id];
       && db'.invoices == db.invoices[id := inv.(status := Approved)]
       && |db'.entries| == |db.entries| + 1
       && db'.entries[..|db.entries|] == db.entries
       && var draft := db'.entries[|db.entries|];
          && KeyOf(draft) == InvoiceKey(inv) && draft.source == Some(id) && draft.status == Draft
          && Balanced(draft.lines) && Debits(draft.lines) == inv.gross
          && SoundAmounts(inv)
  }

  ghost predicate StatusMoved(db: DB, db': DB, id: Id, from: InvoiceStatus, to: InvoiceStatus) {
    InvoiceAt(db, id, from) && db'.invoices == db.invoices[id := db.invoices[id].(status := to)]
  }

  ghost predicate InvoiceEffect(db: DB, t: Task, db': DB) {
    || db'.invoices == db.invoices
    || (t.ApproveCommit? && InvoiceAt(db, t.id, Pending) && ApprovedWithDraft(db, db', t.id))
    || (t.Start? && t.req.Reject? && StatusMoved(db, db', t.req.id, Pending, Rejected))
    || (t.PostCommit? && t.id < |db.entries| && db.entries[t.id].source.Some?
        && StatusMoved(db, db', db.entries[t.id].source.value, Approved, InvoicePosted))
    || (t.InvoiceInsert? && db'.invoices == db.invoices + [t.invoice.(status := Pending)])
  }

  /** A step either leaves the invoice table alone or makes one of four moves. */
  lemma StepMovesInvoices(db: DB, t: Task)
    ensures InvoiceEffect(db, t, Advance(db, t).0)
  {
    if t.Start? {
      BeginMovesInvoices(db, t.req);
    } else if t.ApproveCommit? {
      ApproveStep(db, t);
      var db' := Advance(db, t).0;
      if db' != db {
        InvoiceLinesBalance(db.invoices[t.id]);
        assert db'.entries[..|db.entries|] == db.entries;
      }
    } else if t.UpdateVoid? || t.VoidPlain? {
      VoidSteps(db, t);
    } else if t.ReverseCommit? {
      ReverseStep(db, t);
    }
  }

  lemma BeginMovesInvoices(db: DB, req: Request)
    ensures InvoiceEffect(db, Start(req), Begin(db, req).0)
  {
  }

  /** Approved and posted invoices have non-negative amounts that add up, although drafts may be 0.02 off. */
  ghost predicate SoundInvoices(invs: seq<Invoice>) {
    forall i :: 0 <= i < |invs| && (invs[i].status == Approved || invs[i].status == InvoicePosted)
                ==> SoundAmounts(invs[i])
  }

  /** The number of steps of the run that approve invoice id. */
  ghost function Approvals(s: System, run: seq<Event>, id: Id): nat {
    if run == [] then 0
    else
      var n := |run| - 1;
      Approvals(s, run[..n], id)
      + if InvoiceAt(Exec(s, run[..n]).db, id, Pending) && InvoiceAt(Exec(s, run).db, id, Approved) then 1 else 0
  }

  ghost predicate Settled(db: DB, id: Id) {
    InvoiceAt(db, id, Approved) || InvoiceAt(db, id, InvoicePosted)
  }

  /** An invoice row becomes approved only from pending, and stays approved or posted from then on. */
  lemma StepSettles(db: DB, t: Task, id: Id)
    requires SoundInvoices(db.invoices)
    ensures var db' := Advance(db, t).0;
            && SoundInvoices(db'.invoices)
            && (Settled(db', id) <==> Settled(db, id) || (InvoiceAt(db, id, Pending) && InvoiceAt(db', id, Approved)))
  {
    StepMovesInvoices(db, t);
  }

  /**
   However requests race, an invoice is approved at most once: exactly once if it is now approved or
   posted, and never if it is pending or rejected.
   */
  lemma {:induction false} ApprovedAtMostOnce(periods: map<PeriodKey, PeriodStatus>, run: seq<Event>, id: Id)
    ensures var db := Exec(Fresh(periods), run).db;
            && SoundInvoices(db.invoices)
            && Approvals(Fresh(periods), run, id)
               == if InvoiceAt(db, id, Approved) || InvoiceAt(db, id, InvoicePosted) then 1 else 0
  {
    if run != [] {
      var n := |run| - 1;
      ApprovedAtMostOnce(periods, run[..n], id);
      var s := Exec(Fresh(periods), run[..n]);
      if run[n].Turn? && run[n].i < |s.tasks| {
        StepSettles(s.db, s.tasks[run[n].i], id);
      }
    }
  }

  // ---- Entries ----

  predicate EntryAt(db: DB, id: Id, status: EntryStatus) {
    id < |db.entries| && db.entries[id].status == status
  }

  /** A step that changes the status of an old entry posts a draft or voids something not yet voided. */
  lemma StepMovesEntries(db: DB, t: Task, id: Id)
    requires id < |db.entries|
    ensures var es' := Advance(db, t).0.entries;
            && id < |es'|
            && (es'[id].status == db.entries[id].status
                || (t.PostCommit? && t.id == id && db.entries[id].status == Draft && es'[id].status == Posted)
                || (VoidsEntry(t) && t.id == id && db.entries[id].status != Voided && es'[id].status == Voided))
  {
    if !WritesJournal(t) {
      OtherStepsLeaveJournal(db, t);
    } else if t.UpdateVoid? || t.VoidPlain? {
      VoidSteps(db, t);
    } else if t.PostCommit? {
      PostStep(db, t);
    } else if t.ReverseCommit? {
      ReverseStep(db, t);
    } else if t.ApproveCommit? {
      ApproveStep(db, t);
    }
  }

  predicate VoidsEntry(t: Task) { t.UpdateVoid? || t.VoidPlain? || t.ReverseCommit? }

  /** The reversal of entry id joins the journal as a posted entry, and id is voided. */
  ghost predicate ReversedAndVoided(db: DB, db': DB, id: Id) {
    && EntryAt(db, id, Posted)
    && |db'.entries| == |db.entries| + 1
    && db'.entries[..|db.entries|] == db.entries[id := db.entries[id].(status := Voided)]
    && var rev := db'.entries[|db.entries|];
       && rev.status == Posted && KeyOf(rev) == KeyOf(db.entries[id]) && rev.source == db.entries[id].source
       && rev.lines == Mirror(db.entries[id].lines)
       && (forall a: Account :: Net(db.entries[id].lines + rev.lines, a) == 0)
  }

  /** All three writes of a transactional void are made, or none of them. */
  lemma ReversalIsAllOrNothing(s: System, i: nat)
    requires Sound(true, s) && i < |s.tasks| && s.tasks[i].ReverseCommit?
    requires !EntryAt(s.db, s.tasks[i].id, Draft)
    ensures var db' := Next(s, Turn(i)).db;
            || db' == s.db
            || (&& ReversedAndVoided(s.db, db', s.tasks[i].id)
                && db'.invoices == s.db.invoices && db'.periods == s.db.periods)
  {
    var t := s.tasks[i];
    ReversalMirrors(s, i);
    ReverseStep(s.db, t);
    var db' := Next(s, Turn(i)).db;
    if db' != s.db {
      assert db'.entries[..|s.db.entries|] == s.db.entries[t.id := s.db.entries[t.id].(status := Voided)];
      forall a: Account
        ensures Net(s.db.entries[t.id].lines + Mirror(s.db.entries[t.id].lines), a) == 0
      {
        MirrorNetsToZero(s.db.entries[t.id].lines, a);
      }
    }
  }

  predicate Reverses(t: Task) {
    t.ReverseCommit? || t.ReverseNumber? || (t.VoidCheck? && t.seen.status == Posted)
  }

  /** No task about to reverse an entry read it before it was posted. */
  ghost predicate ReversesPosted(s: System) {
    forall i :: 0 <= i < |s.tasks| && Reverses(s.tasks[i])
                ==> s.tasks[i].id < |s.db.entries| && !EntryAt(s.db, s.tasks[i].id, Draft)
  }

  lemma {:induction false} RunReversesPosted(periods: map<PeriodKey, PeriodStatus>, run: seq<Event>)
    ensures ReversesPosted(Exec(Fresh(periods), run))
  {
    if run != [] {
      var n := |run| - 1;
      RunReversesPosted(periods, run[..n]);
      var s := Exec(Fresh(periods), run[..n]);
      if run[n].Turn? && run[n].i < |s.tasks| {
        TurnReversesPosted(s, run[n].i);
      }
    }
  }

  lemma TurnReversesPosted(s: System, i: nat)
    requires ReversesPosted(s) && i < |s.tasks|
    ensures ReversesPosted(Next(s, Turn(i)))
  {
    var t := s.tasks[i];
    var (db', t') := Advance(s.db, t);
    forall id | 0 <= id < |s.db.entries| && !EntryAt(s.db, id, Draft)
      ensures id < |db'.entries| && !EntryAt(db', id, Draft)
    {
      StepMovesEntries(s.db, t, id);
    }
    assert Reverses(t') ==> t'.id < |s.db.entries| && !EntryAt(s.db, t'.id, Draft) by {
      if t.Start? {
        BeginReceives(s.db, t.req);
      }
    }
  }

  /** A void without reversal is about to hit an entry that has been posted in the meantime. */
  predicate LateVoid(s: System, i: nat) {
    && i < |s.tasks|
    && (s.tasks[i].VoidPlain? || s.tasks[i].UpdateVoid?)
    && FindEntry(s.db, s.tasks[i].entity, s.tasks[i].id).Some?
    && EntryAt(s.db, s.tasks[i].id, Posted)
  }

  /**
   Task i voids posted entries in one of two ways: by a transaction that adds exactly one reversal, the
   entry's mirror; or by a plain void that was decided on before the entry was posted, which adds nothing.
   */
  ghost predicate VoidsProperly(s: System, i: nat) {
    i < |s.tasks| ==>
      var db' := Next(s, Turn(i)).db;
      forall id :: EntryAt(s.db, id, Posted) && EntryAt(db', id, Voided) ==>
        || (s.tasks[i].ReverseCommit? && ReversedAndVoided(s.db, db', id))
        || (LateVoid(s, i) && StatusSet(s.db, db', id, Voided))
  }

  /** If no draft sent for creation can be split into balanced parts, posted entries are only voided so. */
  lemma PostedToVoided(periods: map<PeriodKey, PeriodStatus>, run: seq<Event>, i: nat)
    requires FitRun(true, run)
    ensures VoidsProperly(Exec(Fresh(periods), run), i)
  {
    var s := Exec(Fresh(periods), run);
    RunKeepsSound(true, Fresh(periods), run);
    RunReversesPosted(periods, run);
    if i < |s.tasks| {
      forall id | EntryAt(s.db, id, Posted) && EntryAt(Next(s, Turn(i)).db, id, Voided)
        ensures || (s.tasks[i].ReverseCommit? && ReversedAndVoided(s.db, Next(s, Turn(i)).db, id))
                || (LateVoid(s, i) && StatusSet(s.db, Next(s, Turn(i)).db, id, Voided))
      {
        PostedToVoidedBy(s, i, id);
      }
    }
  }

  lemma PostedToVoidedBy(s: System, i: nat, id: Id)
    requires Sound(true, s) && ReversesPosted(s) && i < |s.tasks|
    requires EntryAt(s.db, id, Posted) && EntryAt(Next(s, Turn(i)).db, id, Voided)
    ensures var db' := Next(s, Turn(i)).db;
            || (s.tasks[i].ReverseCommit? && ReversedAndVoided(s.db, db', id))
            || (LateVoid(s, i) && StatusSet(s.db, db', id, Voided))
  {
    StepMovesEntries(s.db, s.tasks[i], id);
    if s.tasks[i].ReverseCommit? {
      ReversalIsAllOrNothing(s, i);
    } else {
      VoidSteps(s.db, s.tasks[i]);
    }
  }

  /** The number of steps that move entry id from posted to voided. */
  ghost function Voidings(s: System, run: seq<Event>, id: Id): nat {
    if run == [] then 0
    else
      var n := |run| - 1;
      Voidings(s, run[..n], id)
      + if EntryAt(Exec(s, run[..n]).db, id, Posted) && EntryAt(Exec(s, run).db, id, Voided) then 1 else 0
  }

  /** Racing voids void a posted entry once, so it gets at most one reversal. */
  lemma {:induction false} VoidedAtMostOnce(periods: map<PeriodKey, PeriodStatus>, run: seq<Event>, id: Id)
    ensures Voidings(Fresh(periods), run, id) <= 1
    ensures Voidings(Fresh(periods), run, id) == 1 ==> EntryAt(Exec(Fresh(periods), run).db, id, Voided)
  {
    if run != [] {
      var n := |run| - 1;
      VoidedAtMostOnce(periods, run[..n], id);
      var s := Exec(Fresh(periods), run[..n]);
      if run[n].Turn? && run[n].i < |s.tasks| && id < |s.db.entries| {
        StepMovesEntries(s.db, s.tasks[run[n].i], id);
      }
    }
  }

  // ---- Posted invoices and posted entries ----

  ghost predicate Witness(db: DB, e: Id, inv: Id) {
    && e < |db.entries| && inv < |db.invoices|
    && db.entries[e].status == Posted && db.entries[e].source == Some(inv)
    && db.entries[e].entity == db.invoices[inv].entity
  }

  /** Each posted invoice still has a posted entry that came from it. */
  ghost predicate Linked(db: DB) {
    forall inv :: InvoiceAt(db, inv, InvoicePosted) ==> exists e :: Witness(db, e, inv)
  }

  ghost predicate SeenSource(db: DB, t: Task) {
    t.ReverseCommit? || t.ReverseNumber? || t.VoidCheck? ==>
      && t.id < |db.entries|
      && db.entries[t.id].source == t.seen.source && db.entries[t.id].entity == t.seen.entity
  }

  ghost predicate LinkedSystem(s: System) {
    Linked(s.db) && forall i :: 0 <= i < |s.tasks| ==> SeenSource(s.db, s.tasks[i])
  }

  /** The source and the entity of a row never change. */
  lemma SourcesLast(db: DB, t: Task, id: Id)
    requires id < |db.entries|
    ensures var es' := Advance(db, t).0.entries;
            id < |es'| && es'[id].source == db.entries[id].source && es'[id].entity == db.entries[id].entity
  {
    if !WritesJournal(t) {
      OtherStepsLeaveJournal(db, t);
    } else if t.UpdateVoid? || t.VoidPlain? {
      VoidSteps(db, t);
    } else if t.PostCommit? {
      PostStep(db, t);
    } else if t.ReverseCommit? {
      ReverseStep(db, t);
    } else if t.ApproveCommit? {
      ApproveStep(db, t);
    }
  }

  /** A posted witness stays, or its reversal takes its place. */
  lemma WitnessLasts(s: System, i: nat, e: Id, inv: Id)
    requires LinkedSystem(s) && i < |s.tasks| && !LateVoid(s, i) && Witness(s.db, e, inv)
    ensures exists e' :: Witness(Next(s, Turn(i)).db, e', inv)
  {
    var t := s.tasks[i];
    var db' := Next(s, Turn(i)).db;
    StepMovesEntries(s.db, t, e);
    SourcesLast(s.db, t, e);
    StepMovesInvoices(s.db, t);
    if db'.entries[e].status == Posted {
      assert Witness(db', e, inv);
    } else {
      if t.ReverseCommit? {
        ReverseStep(s.db, t);
        assert SeenSource(s.db, t);
        assert Witness(db', |s.db.entries|, inv);
      } else {
        VoidSteps(s.db, t);
      }
    }
  }

  lemma PostLinks(db: DB, t: Task, inv: Id)
    requires t.PostCommit?
    requires InvoiceAt(Advance(db, t).0, inv, InvoicePosted) && !InvoiceAt(db, inv, InvoicePosted)
    ensures Witness(Advance(db, t).0, t.id, inv)
  {
    PostStep(db, t);
    StepMovesInvoices(db, t);
  }

  ghost predicate SoleWitness(db: DB, e: Id, inv: Id) {
    Witness(db, e, inv) && forall e' :: Witness(db, e', inv) ==> e' == e
  }

  /** Task i is a late void of the only posted entry that some posted invoice has. */
  ghost predicate LosesLink(s: System, i: nat) {
    LateVoid(s, i) && exists inv :: InvoiceAt(s.db, inv, InvoicePosted) && SoleWitness(s.db, s.tasks[i].id, inv)
  }

  /** A late void takes the entry it voids, and no other witness. */
  lemma OtherWitnessLasts(s: System, i: nat, e: Id, inv: Id)
    requires LateVoid(s, i) && Witness(s.db, e, inv) && e != s.tasks[i].id
    ensures Witness(Next(s, Turn(i)).db, e, inv)
  {
    VoidSteps(s.db, s.tasks[i]);
  }

  lemma TurnKeepsInvoicesLinked(s: System, i: nat)
    requires LinkedSystem(s) && i < |s.tasks| && !LosesLink(s, i)
    ensures Linked(Next(s, Turn(i)).db)
  {
    var db' := Next(s, Turn(i)).db;
    StepMovesInvoices(s.db, s.tasks[i]);
    forall inv | InvoiceAt(db', inv, InvoicePosted)
      ensures exists e :: Witness(db', e, inv)
    {
      if !InvoiceAt(s.db, inv, InvoicePosted) {
        PostLinks(s.db, s.tasks[i], inv);
      } else if LateVoid(s, i) {
        assert !SoleWitness(s.db, s.tasks[i].id, inv);
        var e :| Witness(s.db, e, inv) && e != s.tasks[i].id;
        OtherWitnessLasts(s, i, e, inv);
      } else {
        var e :| Witness(s.db, e, inv);
        WitnessLasts(s, i, e, inv);
      }
    }
  }

  lemma LostLinkUnlinks(s: System, i: nat)
    requires LosesLink(s, i)
    ensures !Linked(Next(s, Turn(i)).db)
  {
    var db' := Next(s, Turn(i)).db;
    var inv :| InvoiceAt(s.db, inv, InvoicePosted) && SoleWitness(s.db, s.tasks[i].id, inv);
    VoidSteps(s.db, s.tasks[i]);
    assert InvoiceAt(db', inv, InvoicePosted);
    forall e ensures !Witness(db', e, inv) {
      if Witness(db', e, inv) {
        assert Witness(s.db, e, inv);
      }
    }
  }

  /** The step breaks a link exactly if it is such a void. */
  lemma StepLinkedExactly(s: System, i: nat)
    requires LinkedSystem(s) && i < |s.tasks|
    ensures Linked(Next(s, Turn(i)).db) <==> !LosesLink(s, i)
  {
    if LosesLink(s, i) {
      LostLinkUnlinks(s, i);
    } else {
      TurnKeepsInvoicesLinked(s, i);
    }
  }

  lemma SeenSourceLasts(db: DB, t: Task, other: Task)
    requires SeenSource(db, other)
    ensures SeenSource(Advance(db, t).0, other)
  {
    if other.ReverseCommit? || other.ReverseNumber? || other.VoidCheck? {
      SourcesLast(db, t, other.id);
    }
  }

  lemma AdvanceSeesSource(db: DB, t: Task)
    requires SeenSource(db, t)
    ensures SeenSource(Advance(db, t).0, Advance(db, t).1)
  {
    if t.Start? {
      BeginLeavesJournal(db, t.req);
      BeginReceives(db, t.req);
    } else {
      SeenSourceLasts(db, t, t);
    }
  }

  lemma TurnKeepsSources(s: System, i: nat)
    requires LinkedSystem(s) && i < |s.tasks|
    ensures var s' := Next(s, Turn(i)); forall j :: 0 <= j < |s'.tasks| ==> SeenSource(s'.db, s'.tasks[j])
  {
    var s' := Next(s, Turn(i));
    forall j | 0 <= j < |s.tasks|
      ensures SeenSource(s'.db, s'.tasks[j])
    {
      assert SeenSource(s.db, s.tasks[j]);
      if j == i {
        AdvanceSeesSource(s.db, s.tasks[i]);
      } else {
        SeenSourceLasts(s.db, s.tasks[i], s.tasks[j]);
      }
    }
  }

  /** No step of the run voids the only witness of a posted invoice late. */
  ghost predicate KeepsLinks(s: System, run: seq<Event>) {
    run == []
    || (KeepsLinks(s, run[..|run| - 1])
        && (run[|run| - 1].Turn? ==> !LosesLink(Exec(s, run[..|run| - 1]), run[|run| - 1].i)))
  }

  ghost predicate LinkedAlong(s: System, run: seq<Event>) {
    Linked(Exec(s, run).db) && (run == [] || LinkedAlong(s, run[..|run| - 1]))
  }

  lemma {:induction false} PostedInvoicesAreLinked(periods: map<PeriodKey, PeriodStatus>, run: seq<Event>)
    requires KeepsLinks(Fresh(periods), run)
    ensures LinkedSystem(Exec(Fresh(periods), run))
  {
    if run != [] {
      var n := |run| - 1;
      PostedInvoicesAreLinked(periods, run[..n]);
      var s := Exec(Fresh(periods), run[..n]);
      if run[n].Turn? && run[n].i < |s.tasks| {
        StepLinkedExactly(s, run[n].i);
        TurnKeepsSources(s, run[n].i);
      }
    }
  }

  /**
   In every interleaving, all along each posted invoice has a posted entry whose source it is, if and only if
   no step voids the only such entry late; chains of voids keep it, because a reversal inherits its source.
   */
  lemma {:induction false} LinkedExactly(periods: map<PeriodKey, PeriodStatus>, run: seq<Event>)
    ensures LinkedAlong(Fresh(periods), run) <==> KeepsLinks(Fresh(periods), run)
  {
    if run != [] {
      var n := |run| - 1;
      LinkedExactly(periods, run[..n]);
      if KeepsLinks(Fresh(periods), run[..n]) {
        PostedInvoicesAreLinked(periods, run[..n]);
        var s := Exec(Fresh(periods), run[..n]);
        if run[n].Turn? && run[n].i < |s.tasks| {
          StepLinkedExactly(s, run[n].i);
        }
      }
    }
  }
}
