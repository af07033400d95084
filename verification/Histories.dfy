/** What holds over every history of service calls that do not overlap: closed periods stay frozen. */
module Histories {
  import opened Prelude
  import opened Ledger
  import opened Balance
  import opened Transitions

  // ---- What a call touches ----

  /** A post writes nothing but the status of its entry and of that entry's invoice. */
  lemma PostTouches(db: DB, entity: string, id: Id)
    ensures var (db', reply) := PostCall(db, entity, id);
            && db'.periods == db.periods
            && |db'.entries| == |db.entries|
            && (reply.Err? ==> db' == db)
            && (reply.Ok? ==> EntryAt(db', id, Posted) && db.entries[id].entity == entity
                              && !IsClosed(db, KeyOf(db.entries[id]))
                              && db'.entries == db.entries[id := db.entries[id].(status := Posted)])
  {
    var db' := PostCall(db, entity, id).0;
    if db' == db && id < |db.entries| {
      assert db.entries[id := db.entries[id]] == db.entries;
    }
  }

  /** Of the invoice table it writes only the status of the approved invoice its entry came from. */
  lemma PostMarks(db: DB, entity: string, id: Id)
    ensures var db' := PostCall(db, entity, id).0;
            || db'.invoices == db.invoices
            || (EntryAt(db, id, Draft) && EntryAt(db', id, Posted)
                && db.entries[id].entity == entity && db.entries[id].source.Some?
                && StatusMoved(db, db', db.entries[id].source.value, Approved, InvoicePosted)
                && db.invoices[db.entries[id].source.value].entity == entity)
  {
  }

  /** A void sets one status, or adds the reversal of a posted entry and sets its status with it. */
  lemma VoidTouches(db: DB, entity: string, id: Id)
    ensures var db' := VoidCall(db, entity, id).0;
            || db' == db
            || (&& FindEntry(db, entity, id).Some?
                && db'.invoices == db.invoices && db'.periods == db.periods
                && var e := db.entries[id];
                   && !IsClosed(db, KeyOf(e))
                   && db'.entries
                      == (if e.status == Posted
                          then db.entries + [Reversal(e, NextVoucherNo(db, KeyOf(e)), Posted)]
                          else db.entries)[id := e.(status := Voided)])
  {
  }

  /** An approval sets the status of its invoice and adds the draft. */
  lemma ApproveTouches(db: DB, entity: string, id: Id)
    ensures var db' := ApproveCall(db, entity, id).0;
            || db' == db
            || (&& FindInvoice(db, entity, id).Some?
                && db'.periods == db.periods
                && var inv := db.invoices[id];
                   && inv.status == Pending && !IsClosed(db, InvoiceKey(inv))
                   && db'.invoices == db.invoices[id := inv.(status := Approved)]
                   && db'.entries == db.entries + [InvoiceDraft(inv, id, NextVoucherNo(db, InvoiceKey(inv)))])
  {
  }

  // ---- Closed periods ----

  /** Between calls no period is being closed, and a closed or locked period holds no draft. */
  ghost predicate AtRest(db: DB) {
    && (forall k :: k in db.periods ==> db.periods[k] != Closing)
    && (forall i :: 0 <= i < |db.entries| && db.entries[i].status == Draft ==> !IsClosed(db, KeyOf(db.entries[i])))
  }

  lemma DraftIsCounted(db: DB, k: PeriodKey, i: nat)
    requires i < |db.entries| && db.entries[i].status == Draft && KeyOf(db.entries[i]) == k
    ensures HasDraft(db, k)
  {
  }

  lemma CloseKeepsRest(db: DB, k: PeriodKey)
    requires AtRest(db)
    ensures AtRest(CloseCall(db, k).0)
  {
    var db' := CloseCall(db, k).0;
    if db' != db && db'.periods[k] == Closed {
      assert !HasDraft(db, k);
      forall i | 0 <= i < |db.entries| && db.entries[i].status == Draft
        ensures KeyOf(db.entries[i]) != k
      {
        if KeyOf(db.entries[i]) == k {
          DraftIsCounted(db, k, i);
        }
      }
    }
  }

  lemma VoidKeepsRest(db: DB, entity: string, id: Id)
    requires AtRest(db)
    ensures AtRest(VoidCall(db, entity, id).0)
  {
    VoidTouches(db, entity, id);
  }

  lemma ApproveKeepsRest(db: DB, entity: string, id: Id)
    requires AtRest(db)
    ensures AtRest(ApproveCall(db, entity, id).0)
  {
    ApproveTouches(db, entity, id);
  }

  lemma UpdateKeepsRest(db: DB, entity: string, id: Id, source: Option<Id>, lines: seq<Line>)
    requires AtRest(db)
    ensures AtRest(UpdateDraftCall(db, entity, id, source, lines).0)
  {
  }

  lemma ApplyKeepsRest(db: DB, req: Request)
    requires AtRest(db)
    ensures AtRest(Apply(db, req).0)
  {
    match req
    case Close(k) => CloseKeepsRest(db, k);
    case Void(entity, id) => VoidKeepsRest(db, entity, id);
    case Approve(entity, id) => ApproveKeepsRest(db, entity, id);
    case UpdateDraft(entity, id, source, lines) => UpdateKeepsRest(db, entity, id, source, lines);
    case Post(entity, id) => PostTouches(db, entity, id);
    case _ =>
  }

  lemma {:induction false} SameElsewhere(es: seq<Entry>, es': seq<Entry>, k: PeriodKey)
    requires |es| == |es'|
    requires forall i :: 0 <= i < |es| ==> KeyOf(es'[i]) == KeyOf(es[i])
    requires forall i :: 0 <= i < |es| && KeyOf(es[i]) == k ==> es'[i] == es[i]
    ensures EntriesOf(es', k) == EntriesOf(es, k)
  {
    if es != [] {
      SameElsewhere(es[..|es| - 1], es'[..|es| - 1], k);
    }
  }

  lemma {:induction false} AddedElsewhere(es: seq<Entry>, es': seq<Entry>, k: PeriodKey)
    requires |es'| == |es| + 1 && KeyOf(es'[|es|]) != k
    requires forall i :: 0 <= i < |es| ==> KeyOf(es'[i]) == KeyOf(es[i])
    requires forall i :: 0 <= i < |es| && KeyOf(es[i]) == k ==> es'[i] == es[i]
    ensures EntriesOf(es', k) == EntriesOf(es, k)
  {
    SameElsewhere(es, es'[..|es|], k);
    assert EntriesOf(es'[..|es|], k) + [] == EntriesOf(es'[..|es|], k);
  }

  lemma PostFreezes(db: DB, entity: string, id: Id, k: PeriodKey)
    requires IsClosed(db, k)
    ensures EntriesOf(PostCall(db, entity, id).0.entries, k) == EntriesOf(db.entries, k)
  {
    PostTouches(db, entity, id);
    SameElsewhere(db.entries, PostCall(db, entity, id).0.entries, k);
  }

  lemma InsertFreezes(db: DB, e: Entry, k: PeriodKey)
    requires KeyOf(e) != k
    ensures EntriesOf(InsertEntry(db, e).0.entries, k) == EntriesOf(db.entries, k)
  {
    if InsertEntry(db, e).0 != db {
      AddedElsewhere(db.entries, db.entries + [e], k);
    }
  }

  lemma CreateFreezes(db: DB, req: Request, k: PeriodKey)
    requires req.CreateDraft? && IsClosed(db, k)
    ensures EntriesOf(Apply(db, req).0.entries, k) == EntriesOf(db.entries, k)
  {
    var es' := Apply(db, req).0.entries;
    if es' != db.entries {
      AddedElsewhere(db.entries, es', k);
    }
  }

  lemma UpdateFreezes(db: DB, entity: string, id: Id, source: Option<Id>, lines: seq<Line>, k: PeriodKey)
    requires AtRest(db) && IsClosed(db, k)
    ensures EntriesOf(UpdateDraftCall(db, entity, id, source, lines).0.entries, k) == EntriesOf(db.entries, k)
  {
    if EntryAt(db, id, Draft) && db.entries[id].entity == entity {
      var e := db.entries[id];
      var db1 := SetStatus(db, id, Voided);
      SameElsewhere(db.entries, db1.entries, k);
      InsertFreezes(db1, DraftEntry(entity, e.book, e.period, e.voucherNo, source, lines), k);
    }
  }

  lemma ApproveFreezes(db: DB, entity: string, id: Id, k: PeriodKey)
    requires IsClosed(db, k)
    ensures EntriesOf(ApproveCall(db, entity, id).0.entries, k) == EntriesOf(db.entries, k)
  {
    var es' := ApproveCall(db, entity, id).0.entries;
    ApproveTouches(db, entity, id);
    if es' != db.entries {
      AddedElsewhere(db.entries, es', k);
    }
  }

  lemma VoidFreezes(db: DB, entity: string, id: Id, k: PeriodKey)
    requires IsClosed(db, k)
    ensures EntriesOf(VoidCall(db, entity, id).0.entries, k) == EntriesOf(db.entries, k)
  {
    var es' := VoidCall(db, entity, id).0.entries;
    VoidTouches(db, entity, id);
    if |es'| == |db.entries| {
      SameElsewhere(db.entries, es', k);
    } else {
      AddedElsewhere(db.entries, es', k);
    }
  }

  /** The journal of a closed or locked period is exactly what it was: no row of it is added or changed. */
  lemma ApplyFreezes(db: DB, req: Request, k: PeriodKey)
    requires AtRest(db) && IsClosed(db, k)
    ensures EntriesOf(Apply(db, req).0.entries, k) == EntriesOf(db.entries, k)
  {
    match req
    case CreateDraft(_, _, _, _, _, _) => CreateFreezes(db, req, k);
    case UpdateDraft(entity, id, source, lines) => UpdateFreezes(db, entity, id, source, lines, k);
    case Post(entity, id) => PostFreezes(db, entity, id, k);
    case Void(entity, id) => VoidFreezes(db, entity, id, k);
    case Approve(entity, id) => ApproveFreezes(db, entity, id, k);
    case _ =>
  }

  predicate JournalOrInvoiceCall(req: Request) {
    req.CreateDraft? || req.UpdateDraft? || req.Post? || req.Void? || req.CreateInvoice? || req.Approve? || req.Reject?
  }

  lemma OnlyPeriodCallsMovePeriods(db: DB, req: Request)
    requires JournalOrInvoiceCall(req)
    ensures Apply(db, req).0.periods == db.periods
  {
    match req
    case Void(entity, id) => VoidTouches(db, entity, id);
    case Post(entity, id) => PostTouches(db, entity, id);
    case Approve(entity, id) => ApproveTouches(db, entity, id);
    case UpdateDraft(entity, id, source, lines) =>
      assert UpdateDraftCall(db, entity, id, source, lines).0.periods == db.periods;
    case _ =>
  }

  /** Only ReopenPeriod lifts a closed period, and nothing lifts a locked one. */
  lemma ApplyKeepsClosed(db: DB, req: Request, k: PeriodKey)
    requires IsClosed(db, k) && AtRest(db)
    ensures db.periods[k] == Locked ==> k in Apply(db, req).0.periods && Apply(db, req).0.periods[k] == Locked
    ensures req != Reopen(k) ==> IsClosed(Apply(db, req).0, k)
  {
    if JournalOrInvoiceCall(req) {
      OnlyPeriodCallsMovePeriods(db, req);
    }
  }

  lemma {:induction false} HistoryKeepsRest(db: DB, history: seq<Request>)
    requires AtRest(db)
    ensures AtRest(ApplyAll(db, history))
  {
    if history != [] {
      HistoryKeepsRest(db, history[..|history| - 1]);
      ApplyKeepsRest(ApplyAll(db, history[..|history| - 1]), history[|history| - 1]);
    }
  }

  /** The posted lines of a period depend on the entries of that period only. */
  lemma {:induction false} PostedLinesAreLocal(es: seq<Entry>, k: PeriodKey)
    ensures PostedLines(EntriesOf(es, k), k) == PostedLines(es, k)
  {
    if es != [] {
      var n := |es| - 1;
      PostedLinesAreLocal(es[..n], k);
      if KeyOf(es[n]) == k {
        assert EntriesOf(es, k)[..|EntriesOf(es, k)| - 1] == EntriesOf(es[..n], k);
      } else {
        assert EntriesOf(es, k) == EntriesOf(es[..n], k);
        assert PostedLines(es, k) == PostedLines(es[..n], k);
      }
    }
  }

  /** Until it is reopened, a closed period keeps its journal and so its trial balance. */
  lemma {:induction false} ClosedUntilReopened(db: DB, history: seq<Request>, k: PeriodKey)
    requires AtRest(db) && IsClosed(db, k) && Reopen(k) !in history
    ensures IsClosed(ApplyAll(db, history), k)
    ensures EntriesOf(ApplyAll(db, history).entries, k) == EntriesOf(db.entries, k)
    ensures PostedLines(ApplyAll(db, history).entries, k) == PostedLines(db.entries, k)
  {
    if history != [] {
      var n := |history| - 1;
      ClosedUntilReopened(db, history[..n], k);
      HistoryKeepsRest(db, history[..n]);
      ApplyFreezes(ApplyAll(db, history[..n]), history[n], k);
      ApplyKeepsClosed(ApplyAll(db, history[..n]), history[n], k);
    }
    PostedLinesAreLocal(db.entries, k);
    PostedLinesAreLocal(ApplyAll(db, history).entries, k);
  }

  /** A locked period keeps them over every history. */
  lemma {:induction false} LockedForever(db: DB, history: seq<Request>, k: PeriodKey)
    requires AtRest(db) && k in db.periods && db.periods[k] == Locked
    ensures var db' := ApplyAll(db, history);
            && k in db'.periods && db'.periods[k] == Locked
            && EntriesOf(db'.entries, k) == EntriesOf(db.entries, k)
            && PostedLines(db'.entries, k) == PostedLines(db.entries, k)
  {
    if history != [] {
      var n := |history| - 1;
      LockedForever(db, history[..n], k);
      HistoryKeepsRest(db, history[..n]);
      ApplyFreezes(ApplyAll(db, history[..n]), history[n], k);
      ApplyKeepsClosed(ApplyAll(db, history[..n]), history[n], k);
    }
    PostedLinesAreLocal(db.entries, k);
    PostedLinesAreLocal(ApplyAll(db, history).entries, k);
  }

  /** The trial balance check of a closing period cannot fail: only pending invoices and drafts can stop it. */
  lemma {:induction false} OnlyOpenWorkBlocksClosing(db: DB, history: seq<Request>, k: PeriodKey)
    requires AllBalanced(db)
    ensures var db' := ApplyAll(db, history);
            CloseCheckPasses(db', k) <==> !HasPendingInvoice(db', k) && !HasDraft(db', k)
  {
    HistoryBalances(db, history, k);
  }

  // ---- The invoices of a closed period ----

  /** The call posts a draft. */
  predicate PostsDraft(db: DB, req: Request) {
    && req.Post?
    && FindEntry(db, req.entity, req.id).Some?
    && var e := db.entries[req.id];
       e.status == Draft && !IsClosed(db, KeyOf(e)) && e.lines != [] && Balanced(e.lines)
  }

  /** Posting this draft marks an approved invoice of period k as posted. */
  predicate PostsInvoiceOf(db: DB, req: Request, k: PeriodKey) {
    && PostsDraft(db, req)
    && var e := db.entries[req.id];
       && e.source.Some?
       && FindInvoice(db, req.entity, e.source.value).Some?
       && var inv := db.invoices[e.source.value];
          inv.status == Approved && InvoiceKey(inv) == k
  }

  lemma {:induction false} PostedInvoicesUpdate(invs: seq<Invoice>, id: Id, status: InvoiceStatus, k: PeriodKey)
    requires id < |invs| && invs[id].status != InvoicePosted
    ensures var invs' := invs[id := invs[id].(status := status)];
            var grows := InvoiceKey(invs[id]) == k && status == InvoicePosted;
            |PostedInvoices(invs', k)| == |PostedInvoices(invs, k)| + (if grows then 1 else 0)
            && (!grows ==> PostedInvoices(invs', k) == PostedInvoices(invs, k))
  {
    var n := |invs| - 1;
    var invs' := invs[id := invs[id].(status := status)];
    if id == n {
      assert invs'[..n] == invs[..n];
    } else {
      assert invs'[..n] == invs[..n][id := invs[id].(status := status)];
      PostedInvoicesUpdate(invs[..n], id, status, k);
    }
  }

  lemma PostMovesVatList(db: DB, entity: string, id: Id, k: PeriodKey)
    ensures PostedInvoices(PostCall(db, entity, id).0.invoices, k) != PostedInvoices(db.invoices, k)
            <==> PostsInvoiceOf(db, Post(entity, id), k)
  {
    PostMarks(db, entity, id);
    if PostCall(db, entity, id).0.invoices != db.invoices {
      PostedInvoicesUpdate(db.invoices, db.entries[id].source.value, InvoicePosted, k);
    }
  }

  lemma OthersKeepVatList(db: DB, req: Request, k: PeriodKey)
    requires !req.Post?
    ensures PostedInvoices(Apply(db, req).0.invoices, k) == PostedInvoices(db.invoices, k)
  {
    var invs' := Apply(db, req).0.invoices;
    match req
    case Approve(entity, id) =>
      ApproveTouches(db, entity, id);
      if invs' != db.invoices { PostedInvoicesUpdate(db.invoices, id, Approved, k); }
    case Reject(entity, id) =>
      if invs' != db.invoices { PostedInvoicesUpdate(db.invoices, id, Rejected, k); }
    case Void(entity, id) => VoidTouches(db, entity, id);
    case CreateInvoice(inv, _, _) =>
      if invs' != db.invoices { assert invs'[..|db.invoices|] == db.invoices; }
    case _ =>
  }

  /**
   Closing a period does not freeze its VAT reports.  The posted invoices of a period change on exactly one
   kind of call: posting a draft, of whatever open period, whose source is an approved invoice of k.
   */
  lemma VatListChangesExactly(db: DB, req: Request, k: PeriodKey)
    ensures PostedInvoices(Apply(db, req).0.invoices, k) != PostedInvoices(db.invoices, k)
            <==> PostsInvoiceOf(db, req, k)
  {
    if req.Post? {
      PostMovesVatList(db, req.entity, req.id, k);
    } else {
      OthersKeepVatList(db, req, k);
    }
  }

  /**
   So the VAT list of a locked period can still move: a draft of an open period that names an approved invoice
   of the locked one adds that invoice to it when posted.
   */
  lemma LockedVatListMoves(db: DB, i: Id, k: PeriodKey, lines: seq<Line>)
    requires InvoiceAt(db, i, Approved) && IsClosed(db, InvoiceKey(db.invoices[i]))
    requires k.entity == db.invoices[i].entity && !IsClosed(db, k) && (k.period == "" || ValidPeriod(k.period))
    requires lines != [] && Balanced(lines)
    requires !VoucherTaken(db.entries, k, NextVoucherNo(db, k))
    ensures var closedKey := InvoiceKey(db.invoices[i]);
            var db1 := Apply(db, CreateDraft(k.entity, k.book, k.period, "", Some(i), lines)).0;
            var db2 := Apply(db1, Post(k.entity, |db.entries|)).0;
            && PostedInvoices(db2.invoices, closedKey) != PostedInvoices(db.invoices, closedKey)
            && db2.periods == db.periods
  {
    var db1 := Apply(db, CreateDraft(k.entity, k.book, k.period, "", Some(i), lines)).0;
    VatListChangesExactly(db1, Post(k.entity, |db.entries|), InvoiceKey(db.invoices[i]));
    PostTouches(db1, k.entity, |db.entries|);
  }

  // ---- Links ----

  lemma VoidKeepsLinked(db: DB, entity: string, id: Id)
    requires Linked(db)
    ensures Linked(VoidCall(db, entity, id).0)
  {
    var db' := VoidCall(db, entity, id).0;
    VoidTouches(db, entity, id);
    forall inv | InvoiceAt(db', inv, InvoicePosted)
      ensures exists e :: Witness(db', e, inv)
    {
      assert InvoiceAt(db, inv, InvoicePosted);
      var e: Id :| Witness(db, e, inv);
      if db'.entries[e].status == Posted {
        assert Witness(db', e, inv);
      } else {
        assert Witness(db', |db.entries|, inv);
      }
    }
  }

  lemma PostKeepsLinked(db: DB, entity: string, id: Id)
    requires Linked(db)
    ensures Linked(PostCall(db, entity, id).0)
  {
    var db' := PostCall(db, entity, id).0;
    PostTouches(db, entity, id);
    PostMarks(db, entity, id);
    forall inv | InvoiceAt(db', inv, InvoicePosted)
      ensures exists e :: Witness(db', e, inv)
    {
      if InvoiceAt(db, inv, InvoicePosted) {
        var e: Id :| Witness(db, e, inv);
        assert Witness(db', e, inv);
      } else {
        assert Witness(db', id, inv);
      }
    }
  }

  /** Every other call leaves posted entries and posted invoices alone. */
  lemma OthersKeepPosted(db: DB, req: Request)
    requires !req.Void? && !req.Post?
    ensures var db' := Apply(db, req).0;
            && (forall e, inv :: Witness(db, e, inv) ==> Witness(db', e, inv))
            && (forall inv :: InvoiceAt(db', inv, InvoicePosted) ==> InvoiceAt(db, inv, InvoicePosted))
  {
    match req
    case Approve(entity, id) => ApproveTouches(db, entity, id);
    case _ =>
  }

  lemma ApplyKeepsLinked(db: DB, req: Request)
    requires Linked(db)
    ensures Linked(Apply(db, req).0)
  {
    if req.Void? {
      VoidKeepsLinked(db, req.entity, req.id);
    } else if req.Post? {
      PostKeepsLinked(db, req.entity, req.id);
    } else {
      OthersKeepPosted(db, req);
    }
  }

  /** After any history of calls each posted invoice has a posted entry that came from it. */
  lemma {:induction false} HistoryKeepsLinked(db: DB, history: seq<Request>)
    requires Linked(db)
    ensures Linked(ApplyAll(db, history))
  {
    if history != [] {
      HistoryKeepsLinked(db, history[..|history| - 1]);
      ApplyKeepsLinked(ApplyAll(db, history[..|history| - 1]), history[|history| - 1]);
    }
  }

  // ---- Batches ----

  /** Post each id in turn and stop at the first that fails: tables, number posted, and the failure. */
  function BatchPost(db: DB, entity: string, ids: seq<Id>): (DB, nat, Option<Error>)
    decreases |ids|
  {
    if ids == [] then (db, 0, None)
    else
      var (db1, reply) := PostCall(db, entity, ids[0]);
      if reply.Err? then (db1, 0, Some(reply.error))
      else
        var (db', m, err) := BatchPost(db1, entity, ids[1..]);
        (db', m + 1, err)
  }

  /** The listed entries, of the entity and in open periods, are now posted; all others are as before. */
  ghost predicate PostedAll(db: DB, db': DB, entity: string, ids: seq<Id>) {
    && db'.periods == db.periods
    && |db'.entries| == |db.entries|
    && (forall id :: id in ids ==> EntryAt(db', id, Posted) && db'.entries[id].entity == entity
                                   && !IsClosed(db', KeyOf(db'.entries[id])))
    && (forall id :: 0 <= id < |db.entries| ==>
          db'.entries[id] == if id in ids then db.entries[id].(status := Posted) else db.entries[id])
  }

  lemma PostedOneMore(db: DB, db1: DB, db': DB, entity: string, id: Id, ids: seq<Id>)
    requires PostCall(db, entity, id).0 == db1 && PostCall(db, entity, id).1.Ok?
    requires PostedAll(db1, db', entity, ids)
    ensures PostedAll(db, db', entity, [id] + ids)
  {
    PostTouches(db, entity, id);
  }

  /**
   A batch posts exactly the ids before the first one that fails: those end posted, every other entry is
   as before, and the failure is what posting that id alone would answer now.
   */
  lemma {:induction false} BatchPostsPrefix(db: DB, entity: string, ids: seq<Id>)
    ensures var (db', m, err) := BatchPost(db, entity, ids);
            && m <= |ids|
            && (err.None? <==> m == |ids|)
            && PostedAll(db, db', entity, ids[..m])
            && (err.Some? ==> PostCall(db', entity, ids[m]) == (db', Err(err.value)))
    decreases |ids|
  {
    if ids != [] {
      var (db1, reply) := PostCall(db, entity, ids[0]);
      if reply.Err? {
        PostTouches(db, entity, ids[0]);
      } else {
        BatchPostsPrefix(db1, entity, ids[1..]);
        var (db', m, err) := BatchPost(db1, entity, ids[1..]);
        PostedOneMore(db, db1, db', entity, ids[0], ids[1..][..m]);
        assert ids[..m + 1] == [ids[0]] + ids[1..][..m];
      }
    }
  }

  /** Posting entries that are already posted, in periods still open, does nothing and succeeds. */
  lemma {:induction false} BatchOfPosted(db: DB, entity: string, ids: seq<Id>)
    requires forall id :: id in ids ==> EntryAt(db, id, Posted) && db.entries[id].entity == entity
                                        && !IsClosed(db, KeyOf(db.entries[id]))
    ensures BatchPost(db, entity, ids) == (db, |ids|, None)
    decreases |ids|
  {
    if ids != [] {
      assert ids[0] in ids;
      assert PostCall(db, entity, ids[0]) == (db, Ok(ids[0]));
      BatchOfPosted(db, entity, ids[1..]);
    }
  }

  /** Repeating a batch that succeeded is a no-op. */
  lemma BatchIsIdempotent(db: DB, entity: string, ids: seq<Id>)
    requires BatchPost(db, entity, ids).2.None?
    ensures var db' := BatchPost(db, entity, ids).0;
            BatchPost(db', entity, ids) == (db', |ids|, None)
  {
    BatchPostsPrefix(db, entity, ids);
    assert ids[..|ids|] == ids;
    BatchOfPosted(BatchPost(db, entity, ids).0, entity, ids);
  }
}
