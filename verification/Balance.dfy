/** Debits equal credits on every posted entry, whatever requests run at the same time. */
module Balance {
  import opened Prelude
  import opened Ledger
  import opened Phases
  import opened Grouping

  // ---- Reversals ----

  /** A reversal swaps the two column totals. */
  lemma {:induction false} MirrorTotals(lines: seq<Line>)
    ensures Debits(Mirror(lines)) == Credits(lines)
    ensures Credits(Mirror(lines)) == Debits(lines)
  {
    if lines != [] {
      var n := |lines| - 1;
      MirrorTotals(lines[..n]);
      SumAppend(Mirror(lines[..n]), [MirrorLine(lines[n])], LineDebit);
      SumAppend(Mirror(lines[..n]), [MirrorLine(lines[n])], LineCredit);
      SumSingle(MirrorLine(lines[n]), LineDebit);
      SumSingle(MirrorLine(lines[n]), LineCredit);
    }
  }

  /** On each account the mirror has the credits as debits and the debits as credits. */
  lemma {:induction false} MirrorColumns(lines: seq<Line>, a: Account)
    ensures SumOf(Mirror(lines), AccountOf, a, LineDebit) == SumOf(lines, AccountOf, a, LineCredit)
    ensures SumOf(Mirror(lines), AccountOf, a, LineCredit) == SumOf(lines, AccountOf, a, LineDebit)
  {
    if lines != [] {
      var n := |lines| - 1;
      assert Mirror(lines)[..n] == Mirror(lines[..n]);
      MirrorColumns(lines[..n], a);
    }
  }

  /** The amount an account carries over some lines, debit minus credit. */
  function Net(lines: seq<Line>, a: Account): int { SumOf(lines, AccountOf, a, LineNet) }

  lemma {:induction false} NetIsDifference(lines: seq<Line>, a: Account)
    ensures Net(lines, a) == SumOf(lines, AccountOf, a, LineDebit) - SumOf(lines, AccountOf, a, LineCredit)
  {
    if lines != [] {
      NetIsDifference(lines[..|lines| - 1], a);
    }
  }

  /** On every account an entry and its reversal cancel. */
  lemma {:induction false} MirrorNetsToZero(lines: seq<Line>, a: Account)
    ensures Net(lines + Mirror(lines), a) == 0
  {
    SumOfConcat(lines, Mirror(lines), AccountOf, a, LineNet);
    NetIsDifference(lines, a);
    NetIsDifference(Mirror(lines), a);
    MirrorColumns(lines, a);
  }

  /** The draft of an invoice balances exactly when net plus tax is gross, and then its total is gross. */
  lemma InvoiceLinesBalance(inv: Invoice)
    ensures Balanced(InvoiceLines(inv)) <==> inv.net + inv.tax == inv.gross
    ensures Balanced(InvoiceLines(inv)) ==> Debits(InvoiceLines(inv)) == inv.gross
  {
    var l := InvoiceLines(inv);
    assert l == [l[0]] + [l[1]] + [l[2]];
    BalancedConcat([l[0]] + [l[1]], [l[2]]);
    BalancedConcat([l[0]], [l[1]]);
    forall i | 0 <= i < 3
      ensures Debits([l[i]]) == l[i].debit && Credits([l[i]]) == l[i].credit
    {
      SumSingle(l[i], LineDebit);
      SumSingle(l[i], LineCredit);
    }
  }

  // ---- Lists that may be seen half-written ----

  /** Once a non-empty prefix balances, every longer one does. */
  predicate Clean(lines: seq<Line>) {
    forall p, q :: 0 < p <= q <= |lines| && Balanced(lines[..p]) ==> Balanced(lines[..q])
  }

  /** No proper non-empty prefix balances. */
  predicate Indivisible(lines: seq<Line>) {
    forall p :: 0 < p < |lines| ==> !Balanced(lines[..p])
  }

  /** Lists that do not balance are refused, so nothing is asked of them. */
  predicate Fit(whole: bool, lines: seq<Line>) {
    Balanced(lines) ==> Clean(lines) && (whole ==> Indivisible(lines))
  }

  lemma IndivisibleIsClean(lines: seq<Line>)
    requires Indivisible(lines)
    ensures Clean(lines)
  {
  }

  /** What posting asks of an entry's lines. */
  predicate Ready(lines: seq<Line>) { lines != [] && Balanced(lines) }

  lemma ReadyGrows(lines: seq<Line>, rest: seq<Line>)
    requires rest != [] && Ready(lines) && Clean(lines + rest)
    ensures Ready(lines + [rest[0]])
  {
    assert (lines + rest)[..|lines|] == lines;
    assert (lines + rest)[..|lines| + 1] == lines + [rest[0]];
  }

  lemma IndivisibleIsNotReady(lines: seq<Line>, rest: seq<Line>)
    requires rest != [] && Indivisible(lines + rest)
    ensures !Ready(lines)
  {
    assert (lines + rest)[..|lines|] == lines;
  }

  /** Every draft that arrives to be created has lines that fit. */
  predicate FitRun(whole: bool, run: seq<Event>) {
    forall i :: 0 <= i < |run| && run[i].Arrive? && run[i].req.CreateDraft? ==> Fit(whole, run[i].req.lines)
  }

  // ---- The invariant of interleaved runs ----

  predicate AddingTo(t: Task, id: Id) { t.InsertLines? && t.id == id && t.rest != [] }

  /** A creation is still adding lines to this entry. */
  predicate Torn(tasks: seq<Task>, id: Id) {
    exists i :: 0 <= i < |tasks| && AddingTo(tasks[i], id)
  }

  lemma TornElsewhere(tasks: seq<Task>, i: nat, t': Task, id: Id)
    requires i < |tasks| && !AddingTo(tasks[i], id) && !AddingTo(t', id)
    ensures Torn(tasks[i := t'], id) <==> Torn(tasks, id)
  {
    if Torn(tasks, id) {
      var j :| 0 <= j < |tasks| && AddingTo(tasks[j], id);
      assert tasks[i := t'][j] == tasks[j];
    }
  }

  /** The entry was ready when it was read; since then its status may have changed, and lines may have joined. */
  ghost predicate SeenReady(whole: bool, db: DB, id: Id, seen: Entry) {
    && id < |db.entries| && Ready(seen.lines)
    && var e := db.entries[id];
       && e == seen.(status := e.status, lines := e.lines)
       && seen.lines <= e.lines
       && (whole ==> seen.lines == e.lines)
  }

  ghost predicate TaskSound(whole: bool, db: DB, t: Task) {
    match t
    case Start(req) => req.CreateDraft? ==> Fit(whole, req.lines)
    case DraftCheck(e) => e.status == Draft && Fit(whole, e.lines)
    case UpdateVoid(entity, _, seen, _, _) =>
      entity == seen.entity && VoucherTaken(db.entries, KeyOf(seen), seen.voucherNo)
    case UpdateInsert(e) => VoucherTaken(db.entries, KeyOf(e), e.voucherNo)
    case InsertHeader(e) =>
      || VoucherTaken(db.entries, KeyOf(e), e.voucherNo)
      || (e.status == Draft && Fit(whole, e.lines) && Balanced(e.lines))
    case InsertLines(id, rest) =>
      && id < |db.entries|
      && Fit(whole, db.entries[id].lines + rest) && Balanced(db.entries[id].lines + rest)
    case PostCheck(_, id, seen) => id < |db.entries| && (Ready(seen.lines) ==> Ready(db.entries[id].lines))
    case PostCommit(_, id) => id < |db.entries| && Ready(db.entries[id].lines)
    case VoidCheck(_, id, seen) => seen.status == Posted ==> SeenReady(whole, db, id, seen)
    case ReverseNumber(_, id, seen) => SeenReady(whole, db, id, seen)
    case ReverseCommit(_, id, seen, _) => SeenReady(whole, db, id, seen)
    case _ => true
  }

  ghost predicate Sound(whole: bool, s: System) {
    && (forall i :: 0 <= i < |s.tasks| ==> TaskSound(whole, s.db, s.tasks[i]))
    && (forall i, j :: 0 <= i < j < |s.tasks| && s.tasks[i].InsertLines? && s.tasks[j].InsertLines?
                       ==> s.tasks[i].id != s.tasks[j].id)
    && (forall id :: 0 <= id < |s.db.entries| && !Torn(s.tasks, id) ==> Balanced(s.db.entries[id].lines))
    && (forall id :: 0 <= id < |s.db.entries| && s.db.entries[id].status == Posted ==> Ready(s.db.entries[id].lines))
  }

  /**
   Where no draft has a balanced proper prefix, a reversal in flight is built from exactly the entry it will
   void, which balances.
   */
  lemma ReversalMirrors(s: System, i: nat)
    requires Sound(true, s) && i < |s.tasks| && s.tasks[i].ReverseCommit?
    ensures var t := s.tasks[i];
            && t.id < |s.db.entries|
            && Mirror(t.seen.lines) == Mirror(s.db.entries[t.id].lines)
            && Balanced(t.seen.lines)
            && KeyOf(t.seen) == KeyOf(s.db.entries[t.id])
            && t.seen.source == s.db.entries[t.id].source
  {
    assert TaskSound(true, s.db, s.tasks[i]);
  }

  /** Old rows change in nothing but their status, and rows may join. */
  ghost predicate RowsKept(es: seq<Entry>, es': seq<Entry>) {
    |es| <= |es'| && forall id :: 0 <= id < |es| ==> es'[id] == es[id].(status := es'[id].status)
  }

  lemma TakenLasts(es: seq<Entry>, es': seq<Entry>, k: PeriodKey, v: string)
    requires VoucherTaken(es, k, v) && |es| <= |es'|
    requires forall id :: 0 <= id < |es| ==> KeyOf(es'[id]) == KeyOf(es[id]) && es'[id].voucherNo == es[id].voucherNo
    ensures VoucherTaken(es', k, v)
  {
    var id :| 0 <= id < |es| && KeyOf(es[id]) == k && es[id].voucherNo == v;
    assert KeyOf(es'[id]) == k;
  }

  lemma TaskStaysSound(whole: bool, db: DB, db': DB, t: Task)
    requires TaskSound(whole, db, t) && RowsKept(db.entries, db'.entries)
    ensures TaskSound(whole, db', t)
  {
    match t
    case UpdateVoid(_, _, seen, _, _) => TakenLasts(db.entries, db'.entries, KeyOf(seen), seen.voucherNo);
    case UpdateInsert(e) => TakenLasts(db.entries, db'.entries, KeyOf(e), e.voucherNo);
    case InsertHeader(e) =>
      if VoucherTaken(db.entries, KeyOf(e), e.voucherNo) {
        TakenLasts(db.entries, db'.entries, KeyOf(e), e.voucherNo);
      }
    case _ =>
  }

  /** A step that inserts no header and no line. */
  lemma QuietStep(whole: bool, s: System, i: nat, db': DB, t': Task)
    requires Sound(whole, s) && i < |s.tasks|
    requires s.tasks[i].InsertLines? ==> s.tasks[i].rest == []
    requires !t'.InsertLines?
    requires RowsKept(s.db.entries, db'.entries)
    requires forall id :: 0 <= id < |db'.entries| && db'.entries[id].status == Posted
                          ==> Ready(db'.entries[id].lines)
    requires forall id :: |s.db.entries| <= id < |db'.entries| ==> Balanced(db'.entries[id].lines)
    requires TaskSound(whole, db', t')
    ensures Sound(whole, System(db', s.tasks[i := t']))
  {
    var tasks' := s.tasks[i := t'];
    forall id: Id ensures Torn(tasks', id) <==> Torn(s.tasks, id) {
      TornElsewhere(s.tasks, i, t', id);
    }
    forall j | 0 <= j < |tasks'|
      ensures TaskSound(whole, db', tasks'[j])
    {
      if j != i {
        assert TaskSound(whole, s.db, s.tasks[j]);
        TaskStaysSound(whole, s.db, db', s.tasks[j]);
      }
    }
  }

  /** The next line joins the entry that a creation is adding to; what the other tasks know stays true. */
  lemma LineKeepsSeen(whole: bool, db: DB, n: Id, rest: seq<Line>, id: Id, seen: Entry)
    requires TaskSound(whole, db, InsertLines(n, rest)) && rest != [] && SeenReady(whole, db, id, seen)
    ensures SeenReady(whole, AppendLine(db, n, rest[0]), id, seen)
  {
    if whole && id == n {
      IndivisibleIsNotReady(db.entries[n].lines, rest);
    }
  }

  lemma LineKeepsReady(whole: bool, db: DB, n: Id, rest: seq<Line>, id: Id)
    requires TaskSound(whole, db, InsertLines(n, rest)) && rest != []
    requires id < |db.entries| && Ready(db.entries[id].lines)
    ensures Ready(AppendLine(db, n, rest[0]).entries[id].lines)
  {
    if id == n {
      ReadyGrows(db.entries[n].lines, rest);
    }
  }

  lemma LineKeepsTask(whole: bool, db: DB, n: Id, rest: seq<Line>, t: Task)
    requires TaskSound(whole, db, InsertLines(n, rest)) && rest != [] && TaskSound(whole, db, t)
    requires t.InsertLines? ==> t.id != n
    ensures TaskSound(whole, AppendLine(db, n, rest[0]), t)
  {
    var es, es' := db.entries, AppendLine(db, n, rest[0]).entries;
    match t
    case UpdateVoid(_, _, seen, _, _) => TakenLasts(es, es', KeyOf(seen), seen.voucherNo);
    case UpdateInsert(e) => TakenLasts(es, es', KeyOf(e), e.voucherNo);
    case InsertHeader(e) =>
      if VoucherTaken(es, KeyOf(e), e.voucherNo) { TakenLasts(es, es', KeyOf(e), e.voucherNo); }
    case PostCheck(_, id, seen) => if Ready(seen.lines) { LineKeepsReady(whole, db, n, rest, id); }
    case PostCommit(_, id) => LineKeepsReady(whole, db, n, rest, id);
    case VoidCheck(_, id, seen) => if seen.status == Posted { LineKeepsSeen(whole, db, n, rest, id, seen); }
    case ReverseNumber(_, id, seen) => LineKeepsSeen(whole, db, n, rest, id, seen);
    case ReverseCommit(_, id, seen, _) => LineKeepsSeen(whole, db, n, rest, id, seen);
    case _ =>
  }

  /** Task i now adds to entry n, which nobody else adds to, and all else is as it must be. */
  lemma AddingStep(whole: bool, s: System, i: nat, n: Id, rest: seq<Line>, db': DB)
    requires Sound(whole, s) && i < |s.tasks| && n < |db'.entries|
    requires s.tasks[i].InsertLines? ==> s.tasks[i].id == n
    requires |db'.entries| == if n == |s.db.entries| then n + 1 else |s.db.entries|
    requires forall id :: 0 <= id < |s.db.entries| && id != n ==> db'.entries[id] == s.db.entries[id]
    requires forall j :: 0 <= j < |s.tasks| && j != i && s.tasks[j].InsertLines? ==> s.tasks[j].id != n
    requires forall j :: 0 <= j < |s.tasks| && j != i ==> TaskSound(whole, db', s.tasks[j])
    requires TaskSound(whole, db', InsertLines(n, rest))
    requires db'.entries[n].status == Posted ==> Ready(db'.entries[n].lines)
    ensures Sound(whole, System(db', s.tasks[i := InsertLines(n, rest)]))
  {
    var t' := InsertLines(n, rest);
    var s' := System(db', s.tasks[i := t']);
    forall id | 0 <= id < |db'.entries| && !Torn(s'.tasks, id)
      ensures Balanced(db'.entries[id].lines)
    {
      if id == n {
        assert !AddingTo(s'.tasks[i], n);
        assert db'.entries[n].lines + [] == db'.entries[n].lines;
      } else {
        TornElsewhere(s.tasks, i, t', id);
      }
    }
  }

  lemma HeaderStep(whole: bool, s: System, i: nat)
    requires Sound(whole, s) && i < |s.tasks| && s.tasks[i].InsertHeader?
    ensures Sound(whole, Next(s, Turn(i)))
  {
    var e := s.tasks[i].entry;
    assert TaskSound(whole, s.db, s.tasks[i]);
    if VoucherTaken(s.db.entries, KeyOf(e), e.voucherNo) {
      QuietStep(whole, s, i, s.db, Done(Err(Duplicate)));
    } else {
      var db' := AddEntry(s.db, e.(lines := []));
      assert [] + e.lines == e.lines;
      forall j | 0 <= j < |s.tasks|
        ensures j != i ==> TaskSound(whole, db', s.tasks[j])
        ensures s.tasks[j].InsertLines? ==> s.tasks[j].id != |s.db.entries|
      {
        assert TaskSound(whole, s.db, s.tasks[j]);
        TaskStaysSound(whole, s.db, db', s.tasks[j]);
      }
      AddingStep(whole, s, i, |s.db.entries|, e.lines, db');
    }
  }

  lemma LineStep(whole: bool, s: System, i: nat)
    requires Sound(whole, s) && i < |s.tasks| && s.tasks[i].InsertLines? && s.tasks[i].rest != []
    ensures Sound(whole, Next(s, Turn(i)))
  {
    var n, rest := s.tasks[i].id, s.tasks[i].rest;
    assert TaskSound(whole, s.db, s.tasks[i]);
    var db' := AppendLine(s.db, n, rest[0]);
    assert s.db.entries[n].lines + [rest[0]] + rest[1..] == s.db.entries[n].lines + rest;
    forall j | 0 <= j < |s.tasks| && j != i
      ensures s.tasks[j].InsertLines? ==> s.tasks[j].id != n
      ensures TaskSound(whole, db', s.tasks[j])
    {
      assert TaskSound(whole, s.db, s.tasks[j]);
      LineKeepsTask(whole, s.db, n, rest, s.tasks[j]);
    }
    if s.db.entries[n].status == Posted {
      LineKeepsReady(whole, s.db, n, rest, n);
    }
    AddingStep(whole, s, i, n, rest[1..], db');
  }

  /** What receiving a request leaves in flight, as far as the journal is concerned. */
  ghost predicate JustReceived(db: DB, req: Request, t': Task) {
    match t'
    case DraftCheck(e) => req.CreateDraft? && e.status == Draft && e.lines == req.lines
    case PostCheck(_, id, seen) => id < |db.entries| && seen == db.entries[id]
    case VoidCheck(_, id, seen) => id < |db.entries| && seen == db.entries[id]
    case UpdateVoid(entity, id, seen, _, _) => id < |db.entries| && seen == db.entries[id] && entity == seen.entity
    case InvoiceFind(_) | ApproveCheck(_, _, _) | CloseChecking(_) | Done(_) => true
    case _ => false
  }

  lemma BeginReceives(db: DB, req: Request)
    ensures JustReceived(db, req, Begin(db, req).1)
  {
  }

  lemma ReceivedStep(whole: bool, s: System, i: nat, db': DB, t': Task)
    requires Sound(whole, s) && i < |s.tasks| && s.tasks[i].Start?
    requires db'.entries == s.db.entries && JustReceived(s.db, s.tasks[i].req, t')
    ensures Sound(whole, System(db', s.tasks[i := t']))
  {
    assert TaskSound(whole, s.db, s.tasks[i]);
    if t'.UpdateVoid? {
      assert KeyOf(s.db.entries[t'.id]) == KeyOf(t'.seen);
    }
    QuietStep(whole, s, i, db', t');
  }

  lemma BeginStep(whole: bool, s: System, i: nat)
    requires Sound(whole, s) && i < |s.tasks| && s.tasks[i].Start?
    ensures Sound(whole, Next(s, Turn(i)))
  {
    var req := s.tasks[i].req;
    BeginLeavesJournal(s.db, req);
    BeginReceives(s.db, req);
    ReceivedStep(whole, s, i, Begin(s.db, req).0, Begin(s.db, req).1);
  }

  /** What a task that only reads goes on with: the checks of posting and of a draft's balance included. */
  lemma ReadGoesOn(whole: bool, db: DB, t: Task)
    requires TaskSound(whole, db, t) && !t.Start? && !WritesJournal(t)
    ensures TaskSound(whole, db, Advance(db, t).1) && !Advance(db, t).1.InsertLines?
  {
  }

  lemma ReadStep(whole: bool, s: System, i: nat)
    requires Sound(whole, s) && i < |s.tasks| && !s.tasks[i].Start? && !WritesJournal(s.tasks[i])
    ensures Sound(whole, Next(s, Turn(i)))
  {
    var t := s.tasks[i];
    var (db', t') := Advance(s.db, t);
    assert TaskSound(whole, s.db, t);
    OtherStepsLeaveJournal(s.db, t);
    ReadGoesOn(whole, s.db, t);
    TaskStaysSound(whole, s.db, db', t');
    QuietStep(whole, s, i, db', t');
  }

  lemma ReverseKeepsSound(whole: bool, s: System, i: nat)
    requires Sound(whole, s) && i < |s.tasks| && s.tasks[i].ReverseCommit?
    ensures Sound(whole, Next(s, Turn(i)))
  {
    var t := s.tasks[i];
    assert TaskSound(whole, s.db, t);
    ReverseStep(s.db, t);
    MirrorTotals(t.seen.lines);
    QuietStep(whole, s, i, Advance(s.db, t).0, Advance(s.db, t).1);
  }

  lemma ApproveKeepsSound(whole: bool, s: System, i: nat)
    requires Sound(whole, s) && i < |s.tasks| && s.tasks[i].ApproveCommit?
    ensures Sound(whole, Next(s, Turn(i)))
  {
    ApproveStep(s.db, s.tasks[i]);
    QuietStep(whole, s, i, Advance(s.db, s.tasks[i]).0, Advance(s.db, s.tasks[i]).1);
  }

  lemma StatusStep(whole: bool, s: System, i: nat)
    requires Sound(whole, s) && i < |s.tasks|
    requires s.tasks[i].VoidPlain? || s.tasks[i].PostCommit?
             || (s.tasks[i].InsertLines? && s.tasks[i].rest == [])
    ensures Sound(whole, Next(s, Turn(i)))
  {
    var t := s.tasks[i];
    assert TaskSound(whole, s.db, t);
    if t.VoidPlain? {
      VoidSteps(s.db, t);
    } else if t.PostCommit? {
      PostStep(s.db, t);
    }
    QuietStep(whole, s, i, Advance(s.db, t).0, Advance(s.db, t).1);
  }

  lemma UpdateStep(whole: bool, s: System, i: nat)
    requires Sound(whole, s) && i < |s.tasks| && s.tasks[i].UpdateVoid?
    ensures Sound(whole, Next(s, Turn(i)))
  {
    var t := s.tasks[i];
    var (db', t') := Advance(s.db, t);
    assert TaskSound(whole, s.db, t);
    VoidSteps(s.db, t);
    TaskStaysSound(whole, s.db, db', t);
    QuietStep(whole, s, i, db', t');
  }

  lemma TurnKeepsSound(whole: bool, s: System, i: nat)
    requires Sound(whole, s) && i < |s.tasks|
    ensures Sound(whole, Next(s, Turn(i)))
  {
    var t := s.tasks[i];
    if t.Start? {
      BeginStep(whole, s, i);
    } else if !WritesJournal(t) {
      ReadStep(whole, s, i);
    } else if t.InsertHeader? {
      HeaderStep(whole, s, i);
    } else if t.InsertLines? && t.rest != [] {
      LineStep(whole, s, i);
    } else if t.ReverseCommit? {
      ReverseKeepsSound(whole, s, i);
    } else if t.ApproveCommit? {
      ApproveKeepsSound(whole, s, i);
    } else if t.UpdateVoid? {
      UpdateStep(whole, s, i);
    } else {
      StatusStep(whole, s, i);
    }
  }

  lemma ArriveKeepsSound(whole: bool, s: System, req: Request)
    requires Sound(whole, s) && (req.CreateDraft? ==> Fit(whole, req.lines))
    ensures Sound(whole, Next(s, Arrive(req)))
  {
    var s' := Next(s, Arrive(req));
    forall id: Id ensures Torn(s'.tasks, id) <==> Torn(s.tasks, id) {
      if Torn(s.tasks, id) {
        var j :| 0 <= j < |s.tasks| && AddingTo(s.tasks[j], id);
        assert s'.tasks[j] == s.tasks[j];
      }
    }
  }

  lemma {:induction false} RunKeepsSound(whole: bool, s: System, run: seq<Event>)
    requires Sound(whole, s) && FitRun(whole, run)
    ensures Sound(whole, Exec(s, run))
  {
    if run != [] {
      var n := |run| - 1;
      RunKeepsSound(whole, s, run[..n]);
      var before := Exec(s, run[..n]);
      match run[n]
      case Arrive(req) => ArriveKeepsSound(whole, before, req);
      case Turn(i) => if i < |before.tasks| { TurnKeepsSound(whole, before, i); }
    }
  }

  predicate PostedOf(e: Entry, k: PeriodKey) { KeyOf(e) == k && e.status == Posted }

  /** Posted lines depend on the posted entries of the period only. */
  lemma {:induction false} PostedLinesSame(es: seq<Entry>, es': seq<Entry>, k: PeriodKey)
    requires |es| == |es'|
    requires forall i :: 0 <= i < |es| ==> (PostedOf(es[i], k) <==> PostedOf(es'[i], k))
    requires forall i :: 0 <= i < |es| && PostedOf(es[i], k) ==> es[i].lines == es'[i].lines
    ensures PostedLines(es', k) == PostedLines(es, k)
  {
    if es != [] {
      PostedLinesSame(es[..|es| - 1], es'[..|es| - 1], k);
    }
  }

  lemma {:induction false} PostedLinesBalance(es: seq<Entry>, k: PeriodKey)
    requires forall i :: 0 <= i < |es| && es[i].status == Posted ==> Balanced(es[i].lines)
    ensures Balanced(PostedLines(es, k))
  {
    if es != [] {
      var n := |es| - 1;
      PostedLinesBalance(es[..n], k);
      BalancedConcat(PostedLines(es[..n], k), es[n].lines);
      assert PostedLines(es[..n], k) + [] == PostedLines(es[..n], k);
    }
  }

  /** Each posted entry balances, and so does the trial balance of every entity, book and period. */
  ghost predicate PostedBalance(db: DB) {
    && (forall id :: 0 <= id < |db.entries| && db.entries[id].status == Posted ==> Balanced(db.entries[id].lines))
    && (forall k: PeriodKey :: Balanced(PostedLines(db.entries, k)))
  }

  /** However requests interleave, what is posted balances, if the drafts sent for creation have clean lines. */
  lemma {:induction false} InterleavedRunsBalance(periods: map<PeriodKey, PeriodStatus>, run: seq<Event>)
    requires FitRun(false, run)
    ensures PostedBalance(Exec(Fresh(periods), run).db)
  {
    RunKeepsSound(false, Fresh(periods), run);
    var s := Exec(Fresh(periods), run);
    forall k: PeriodKey ensures Balanced(PostedLines(s.db.entries, k)) {
      PostedLinesBalance(s.db.entries, k);
    }
  }

  /** The tables that requests can leave when the drafts sent for creation have clean lines. */
  ghost predicate Reached(db: DB) {
    exists periods, run :: FitRun(false, run) && Exec(Fresh(periods), run).db == db
  }

  lemma ReachedBalances(db: DB, k: PeriodKey)
    requires Reached(db)
    ensures Balanced(PostedLines(db.entries, k))
  {
    var periods, run :| FitRun(false, run) && Exec(Fresh(periods), run).db == db;
    InterleavedRunsBalance(periods, run);
  }

  // ---- Calls that do not overlap ----

  predicate AllBalanced(db: DB) {
    forall id :: 0 <= id < |db.entries| ==> Balanced(db.entries[id].lines)
  }

  lemma AddKeepsBalanced(db: DB, e: Entry)
    requires AllBalanced(db) && Balanced(e.lines)
    ensures AllBalanced(AddEntry(db, e))
  {
  }

  lemma StatusKeepsBalanced(db: DB, id: Id, status: EntryStatus)
    requires AllBalanced(db) && id < |db.entries|
    ensures AllBalanced(SetStatus(db, id, status))
  {
  }

  lemma ReversalKeepsBalanced(db: DB, entity: string, id: Id, e: Entry, voucherNo: string)
    requires AllBalanced(db) && Balanced(e.lines)
    ensures AllBalanced(ReverseAndVoid(db, entity, id, e, voucherNo).0)
  {
    var rev := Reversal(e, voucherNo, Posted);
    MirrorTotals(e.lines);
    AddKeepsBalanced(db, rev);
    if id < |AddEntry(db, rev).entries| {
      StatusKeepsBalanced(AddEntry(db, rev), id, Voided);
    }
  }

  lemma VoidKeepsBalanced(db: DB, entity: string, id: Id)
    requires AllBalanced(db)
    ensures AllBalanced(VoidCall(db, entity, id).0)
  {
    if id < |db.entries| {
      var e := db.entries[id];
      StatusKeepsBalanced(db, id, Voided);
      ReversalKeepsBalanced(db, entity, id, e, NextVoucherNo(db, KeyOf(e)));
    }
  }

  lemma InsertKeepsBalanced(db: DB, e: Entry)
    requires AllBalanced(db) && Balanced(e.lines)
    ensures AllBalanced(InsertEntry(db, e).0)
  {
    AddKeepsBalanced(db, e);
  }

  lemma UpdateKeepsBalanced(db: DB, entity: string, id: Id, source: Option<Id>, lines: seq<Line>)
    requires AllBalanced(db)
    ensures AllBalanced(UpdateDraftCall(db, entity, id, source, lines).0)
  {
    if id < |db.entries| {
      var e := db.entries[id];
      StatusKeepsBalanced(db, id, Voided);
      if Balanced(lines) {
        InsertKeepsBalanced(SetStatus(db, id, Voided),
                            DraftEntry(entity, e.book, e.period, e.voucherNo, source, lines));
      }
    }
  }

  lemma PostKeepsBalanced(db: DB, entity: string, id: Id)
    requires AllBalanced(db)
    ensures AllBalanced(PostCall(db, entity, id).0)
  {
    if id < |db.entries| {
      StatusKeepsBalanced(db, id, Posted);
    }
  }

  lemma ApproveKeepsBalanced(db: DB, entity: string, id: Id, voucherNo: string)
    requires AllBalanced(db)
    ensures AllBalanced(ApproveAndDraft(db, entity, id, voucherNo).0)
  {
  }

  lemma ApplyKeepsBalanced(db: DB, req: Request)
    requires AllBalanced(db)
    ensures AllBalanced(Apply(db, req).0)
  {
    match req
    case CreateDraft(_, _, _, _, _, _) =>
    case UpdateDraft(entity, id, source, lines) => UpdateKeepsBalanced(db, entity, id, source, lines);
    case Post(entity, id) => PostKeepsBalanced(db, entity, id);
    case Void(entity, id) => VoidKeepsBalanced(db, entity, id);
    case Approve(entity, id) =>
      if id < |db.invoices| {
        ApproveKeepsBalanced(db, entity, id, NextVoucherNo(db, InvoiceKey(db.invoices[id])));
      }
    case _ =>
  }

  lemma {:induction false} HistoryBalances(db: DB, history: seq<Request>, k: PeriodKey)
    requires AllBalanced(db)
    ensures AllBalanced(ApplyAll(db, history))
    ensures Balanced(PostedLines(ApplyAll(db, history).entries, k))
  {
    if history != [] {
      HistoryBalances(db, history[..|history| - 1], k);
      ApplyKeepsBalanced(ApplyAll(db, history[..|history| - 1]), history[|history| - 1]);
    }
    PostedLinesBalance(ApplyAll(db, history).entries, k);
  }
}
