/**
 A creation writes its header and its lines one statement at a time, so a post or a void can catch it half
 done.  These are the runs that show which line lists that harms.
 */
module TornDrafts {
  import opened Prelude
  import opened Ledger
  import opened Phases
  import opened Balance
  import opened Transitions
  import opened Runs
  import opened Vouchers

  function Written(k: PeriodKey, v: string, lines: seq<Line>, status: EntryStatus): Entry {
    Entry(k.entity, k.book, k.period, v, None, status, lines)
  }

  function Creation(k: PeriodKey, typed: string, lines: seq<Line>): Request {
    CreateDraft(k.entity, k.book, k.period, typed, None, lines)
  }

  /** The voucher number a creation asks for: the one typed, or the next one. */
  function NumberFor(db: DB, k: PeriodKey, typed: string): string {
    if typed == "" then NextVoucherNo(db, k) else typed
  }

  predicate Takes(db: DB, k: PeriodKey, v: string) {
    !VoucherTaken(db.entries, k, v) && !IsClosed(db, k) && (k.period == "" || ValidPeriod(k.period))
  }

  /** The period takes this draft, and still gives out numbers afterwards. */
  predicate Accepts(db: DB, k: PeriodKey, typed: string) {
    && Takes(db, k, NumberFor(db, k, typed))
    && !Jammed(AddEntry(db, Written(k, NumberFor(db, k, typed), [], Draft)), k)
  }

  /** The three requests of such a run: create the draft, post it, void it. */
  function Three(db: DB, k: PeriodKey, typed: string, lines: seq<Line>): set<Request> {
    { Creation(k, typed, lines), Post(k.entity, |db.entries|), Void(k.entity, |db.entries|) }
  }

  // ---- Up to the half-written entry ----

  lemma HeaderLands(db: DB, rs: set<Request>, k: PeriodKey, typed: string, lines: seq<Line>)
    requires Takes(db, k, NumberFor(db, k, typed)) && Ready(lines) && Creation(k, typed, lines) in rs
    ensures Leads(System(db, []), rs, System(AddEntry(db, Written(k, NumberFor(db, k, typed), [], Draft)),
                                             [] + [InsertLines(|db.entries|, lines)]))
  {
    var s0, e := System(db, []), Written(k, NumberFor(db, k, typed), lines, Draft);
    Stay(s0, rs);
    Arrives(s0, rs, s0, Creation(k, typed, lines));
    LastSteps(s0, rs, db, [], Start(Creation(k, typed, lines)), db, DraftCheck(e));
    LastSteps(s0, rs, db, [], DraftCheck(e), db, InsertHeader(e));
    LastSteps(s0, rs, db, [], InsertHeader(e), AddEntry(db, e.(lines := [])), InsertLines(|db.entries|, lines));
  }

  /** The creation in task 0 writes its lines p to q. */
  lemma {:induction false} LinesLand(s: System, rs: set<Request>, db: DB, e: Entry, lines: seq<Line>, p: nat, q: nat,
                                     others: seq<Task>)
    requires p <= q <= |lines|
    requires Leads(s, rs, System(AddEntry(db, e.(lines := lines[..p])),
                                 [InsertLines(|db.entries|, lines[p..])] + others))
    ensures Leads(s, rs, System(AddEntry(db, e.(lines := lines[..q])),
                                [InsertLines(|db.entries|, lines[q..])] + others))
    decreases q - p
  {
    if p < q {
      LineLands(s, rs, db, e, lines, p, others);
      LinesLand(s, rs, db, e, lines, p + 1, q, others);
    }
  }

  lemma LineLands(s: System, rs: set<Request>, db: DB, e: Entry, lines: seq<Line>, p: nat, others: seq<Task>)
    requires p < |lines|
    requires Leads(s, rs, System(AddEntry(db, e.(lines := lines[..p])),
                                 [InsertLines(|db.entries|, lines[p..])] + others))
    ensures Leads(s, rs, System(AddEntry(db, e.(lines := lines[..p + 1])),
                                [InsertLines(|db.entries|, lines[p + 1..])] + others))
  {
    var n, es := |db.entries|, db.entries + [e.(lines := lines[..p])];
    var mid := System(AddEntry(db, e.(lines := lines[..p])), [InsertLines(n, lines[p..])] + others);
    assert lines[..p] + [lines[p]] == lines[..p + 1] && lines[p..][1..] == lines[p + 1..];
    assert es[n := e.(lines := lines[..p + 1])] == db.entries + [e.(lines := lines[..p + 1])];
    assert mid.tasks[0 := InsertLines(n, lines[p + 1..])] == [InsertLines(n, lines[p + 1..])] + others;
    Hop(s, rs, mid, Turn(0));
  }

  lemma PostOfLast(db: DB, k: PeriodKey, v: string, lines: seq<Line>)
    requires !IsClosed(db, k) && Ready(lines)
    ensures Apply(AddEntry(db, Written(k, v, lines, Draft)), Post(k.entity, |db.entries|))
            == (AddEntry(db, Written(k, v, lines, Posted)), Ok(|db.entries|))
  {
    assert (db.entries + [Written(k, v, lines, Draft)])[|db.entries| := Written(k, v, lines, Posted)]
           == db.entries + [Written(k, v, lines, Posted)];
  }

  /** Posted after p lines, and given lines p to q only then. */
  lemma PostedHalfWritten(db: DB, rs: set<Request>, k: PeriodKey, typed: string, lines: seq<Line>, p: nat, q: nat)
    requires Takes(db, k, NumberFor(db, k, typed)) && Ready(lines)
    requires 0 < p <= q <= |lines| && Balanced(lines[..p])
    requires Creation(k, typed, lines) in rs && Post(k.entity, |db.entries|) in rs
    ensures Leads(System(db, []), rs,
                  System(AddEntry(db, Written(k, NumberFor(db, k, typed), lines[..q], Posted)),
                         [InsertLines(|db.entries|, lines[q..])] + [Done(Ok(|db.entries|))]))
  {
    var s0, n, v := System(db, []), |db.entries|, NumberFor(db, k, typed);
    HeaderLands(db, rs, k, typed, lines);
    assert [] + [InsertLines(n, lines)] == [InsertLines(n, lines[0..])] + [] && lines[..0] == [];
    LinesLand(s0, rs, db, Written(k, v, [], Draft), lines, 0, p, []);
    PostOfLast(db, k, v, lines[..p]);
    CallRuns(s0, rs, System(AddEntry(db, Written(k, v, lines[..p], Draft)), [InsertLines(n, lines[p..])] + []),
             Post(k.entity, n));
    assert [InsertLines(n, lines[p..])] + [] + [Done(Ok(n))] == [InsertLines(n, lines[p..])] + [Done(Ok(n))];
    LinesLand(s0, rs, db, Written(k, v, [], Posted), lines, p, q, [Done(Ok(n))]);
  }

  // ---- A void of the half-written entry ----

  /** Neither lines nor status matter to whether the period still gives out numbers. */
  lemma JamIgnoresLines(db: DB, k: PeriodKey, v: string, lines: seq<Line>, status: EntryStatus)
    requires !Jammed(AddEntry(db, Written(k, v, [], Draft)), k)
    ensures !Jammed(AddEntry(db, Written(k, v, lines, status)), k)
  {
    var es, es' := db.entries + [Written(k, v, [], Draft)], db.entries + [Written(k, v, lines, status)];
    SameRowsSameVouchers(es, es', k);
    TakenIsVoucher(es, k, NextVoucherNo(AddEntry(db, Written(k, v, [], Draft)), k));
    TakenIsVoucher(es', k, NextVoucherNo(AddEntry(db, Written(k, v, [], Draft)), k));
  }

  /** A void that read e in the last row. */
  function ReversingLast(db: DB, e: Entry): Task {
    PendingVoid(AddEntry(db, e), e.entity, |db.entries|)
  }

  lemma NumberStillFree(db: DB, e: Entry, seen: Entry)
    requires KeyOf(e) == KeyOf(seen) && e.voucherNo == seen.voucherNo && !Jammed(AddEntry(db, seen), KeyOf(e))
    ensures !VoucherTaken(db.entries + [e], KeyOf(e), NextVoucherNo(AddEntry(db, seen), KeyOf(e)))
  {
    var v := NextVoucherNo(AddEntry(db, seen), KeyOf(e));
    TakenIsVoucher(db.entries + [seen], KeyOf(e), v);
    TakenIsVoucher(db.entries + [e], KeyOf(e), v);
    SameRowsSameVouchers(db.entries + [seen], db.entries + [e], KeyOf(e));
  }

  lemma LastIsReversed(db: DB, e: Entry, seen: Entry, v: string)
    requires e == seen.(lines := e.lines) && e.status == Posted && !VoucherTaken(db.entries + [e], KeyOf(e), v)
    ensures ReverseAndVoid(AddEntry(db, e), e.entity, |db.entries|, seen, v)
            == (db.(entries := db.entries + [e.(status := Voided)] + [Reversal(seen, v, Posted)]), Ok(|db.entries|))
  {
    var n, rev := |db.entries|, Reversal(seen, v, Posted);
    assert (db.entries + [e] + [rev])[n := e.(status := Voided)] == db.entries + [e.(status := Voided)] + [rev];
  }

  /** The transaction of that void, the entry having grown meanwhile. */
  lemma VoidLands(db: DB, e: Entry, seen: Entry)
    requires e == seen.(lines := e.lines) && e.status == Posted && !Jammed(AddEntry(db, seen), KeyOf(e))
    ensures var t := ReversingLast(db, seen);
            Advance(AddEntry(db, e), t)
            == (db.(entries := db.entries + [e.(status := Voided)] + [Reversal(seen, t.voucherNo, Posted)]),
                Done(Ok(|db.entries|)))
  {
    NumberStillFree(db, e, seen);
    LastIsReversed(db, e, seen, ReversingLast(db, seen).voucherNo);
  }

  /**
   Posted after p lines, read by a void after q, and grown to r before the void commits: the reversal mirrors
   the first q lines.
   */
  lemma VoidedHalfWritten(db: DB, k: PeriodKey, typed: string, lines: seq<Line>, p: nat, q: nat, r: nat)
    requires Accepts(db, k, typed) && Ready(lines) && 0 < p <= q <= r <= |lines| && Balanced(lines[..p])
    ensures var n, v := |db.entries|, NumberFor(db, k, typed);
            var seen, e := Written(k, v, lines[..q], Posted), Written(k, v, lines[..r], Posted);
            var t := ReversingLast(db, seen);
            && Leads(System(db, []), Three(db, k, typed, lines),
                     System(AddEntry(db, e), [InsertLines(n, lines[r..])] + [Done(Ok(n)), t]))
            && Advance(AddEntry(db, e), t)
               == (db.(entries := db.entries + [e.(status := Voided)] + [Reversal(seen, t.voucherNo, Posted)]),
                   Done(Ok(n)))
  {
    var s0, n, v, rs := System(db, []), |db.entries|, NumberFor(db, k, typed), Three(db, k, typed, lines);
    var seen, e := Written(k, v, lines[..q], Posted), Written(k, v, lines[..r], Posted);
    PostedHalfWritten(db, rs, k, typed, lines, p, q);
    VoidReadyToCommit(s0, rs, System(AddEntry(db, seen), [InsertLines(n, lines[q..])] + [Done(Ok(n))]), k.entity, n);
    var t := ReversingLast(db, seen);
    assert [InsertLines(n, lines[q..])] + [Done(Ok(n))] + [t] == [InsertLines(n, lines[q..])] + [Done(Ok(n)), t];
    LinesLand(s0, rs, db, Written(k, v, [], Posted), lines, q, r, [Done(Ok(n)), t]);
    JamIgnoresLines(db, k, v, lines[..q], Posted);
    VoidLands(db, e, seen);
  }

  // ---- Which lists are harmed ----

  /** The void commits, the creation writes its last lines, and nothing is left in flight. */
  lemma CreationEnds(s: System, rs: set<Request>, db: DB, e: Entry, rev: Entry, rest: seq<Line>, t: Task)
    requires Leads(s, rs, System(AddEntry(db, e), [InsertLines(|db.entries|, rest)] + [Done(Ok(|db.entries|)), t]))
    requires Advance(AddEntry(db, e), t)
             == (db.(entries := db.entries + [e.(status := Voided)] + [rev]), Done(Ok(|db.entries|)))
    ensures var done := Done(Ok(|db.entries|));
            Leads(s, rs, System(db.(entries := db.entries + [e.(status := Voided, lines := e.lines + rest)] + [rev]),
                                [done, done, done]))
  {
    var n, e' := |db.entries|, e.(status := Voided);
    var voided := db.(entries := db.entries + [e'] + [rev]);
    var half, done := [InsertLines(n, rest)] + [Done(Ok(n)), t], Done(Ok(n));
    assert half[2 := done] == [InsertLines(n, rest), done, done];
    HopTo(s, rs, System(AddEntry(db, e), half), Turn(2), System(voided, [InsertLines(n, rest), done, done]));
    TaskFinishes(s, rs, System(voided, [InsertLines(n, rest), done, done]), 0);
    LinesAlone(voided, n, rest);
    assert [InsertLines(n, rest), done, done][0 := done] == [done, done, done];
    assert voided.entries[n := e'.(lines := e'.lines + rest)] == db.entries + [e'.(lines := e'.lines + rest)] + [rev];
  }

  /** Nothing is in flight any more, and posted entry id does not balance. */
  ghost predicate LeftUnbalanced(s: System, id: Id) {
    (forall t | t in s.tasks :: t.Done?) && EntryAt(s.db, id, Posted) && !Balanced(s.db.entries[id].lines)
  }

  lemma EndsUnbalanced(db: DB, es: seq<Entry>, rev: Entry, seen: Entry, v: string, done: Task)
    requires rev == Reversal(seen, v, Posted) && !Balanced(seen.lines) && done.Done?
    ensures LeftUnbalanced(System(db.(entries := es + [rev]), [done, done, done]), |es|)
  {
    MirrorTotals(seen.lines);
    assert (es + [rev])[|es|] == rev;
  }

  lemma VoidedWithoutMirror(db: DB, s: System, e: Entry, rev: Entry, i: nat)
    requires s.db == AddEntry(db, e) && e.status == Posted && i < |s.tasks| && s.tasks[i].ReverseCommit?
    requires Advance(s.db, s.tasks[i]).0.entries == db.entries + [e.(status := Voided)] + [rev]
    requires rev.lines != Mirror(e.lines)
    ensures !VoidsProperly(s, i)
  {
    var n, db' := |db.entries|, Next(s, Turn(i)).db;
    assert EntryAt(s.db, n, Posted) && EntryAt(db', n, Voided);
    assert db'.entries[n + 1] == rev;
    assert !ReversedAndVoided(s.db, db', n);
  }

  /** Posted after p lines and voided after q: at the end the reversal mirrors q lines. */
  lemma HalfReversed(db: DB, k: PeriodKey, typed: string, lines: seq<Line>, p: nat, q: nat) returns (s': System)
    requires Accepts(db, k, typed) && Ready(lines) && 0 < p <= q <= |lines|
    requires Balanced(lines[..p]) && !Balanced(lines[..q])
    ensures Leads(System(db, []), Three(db, k, typed, lines), s') && LeftUnbalanced(s', |db.entries| + 1)
  {
    var done := Done(Ok(|db.entries|));
    var seen := Written(k, NumberFor(db, k, typed), lines[..q], Posted);
    var t := ReversingLast(db, seen);
    var rev := Reversal(seen, t.voucherNo, Posted);
    var es := db.entries + [seen.(status := Voided, lines := seen.lines + lines[q..])];
    VoidedHalfWritten(db, k, typed, lines, p, q, q);
    CreationEnds(System(db, []), Three(db, k, typed, lines), db, seen, rev, lines[q..], t);
    s' := System(db.(entries := es + [rev]), [done, done, done]);
    EndsUnbalanced(db, es, rev, seen, t.voucherNo, done);
  }

  /**
   Every balanced list with a balanced prefix that stops balancing can leave a posted reversal that does not
   balance, with nothing in flight that could still mend it.
   */
  lemma UncleanUnbalances(db: DB, k: PeriodKey, typed: string, lines: seq<Line>)
    requires Accepts(db, k, typed) && Balanced(lines) && !Clean(lines)
    ensures exists s' :: Leads(System(db, []), Three(db, k, typed, lines), s') && LeftUnbalanced(s', |db.entries| + 1)
  {
    var p, q :| 0 < p <= q <= |lines| && Balanced(lines[..p]) && !Balanced(lines[..q]);
    var s' := HalfReversed(db, k, typed, lines, p, q);
  }

  /** Posted and read by a void after p lines, given one more before the void commits. */
  lemma GrownBeforeVoid(db: DB, k: PeriodKey, typed: string, lines: seq<Line>, p: nat) returns (s': System)
    requires Accepts(db, k, typed) && Ready(lines) && 0 < p < |lines| && Balanced(lines[..p])
    ensures Leads(System(db, []), Three(db, k, typed, lines), s') && !VoidsProperly(s', 2)
  {
    var n, v := |db.entries|, NumberFor(db, k, typed);
    var seen, e := Written(k, v, lines[..p], Posted), Written(k, v, lines[..p + 1], Posted);
    var t := ReversingLast(db, seen);
    VoidedHalfWritten(db, k, typed, lines, p, p, p + 1);
    s' := System(AddEntry(db, e), [InsertLines(n, lines[p + 1..])] + [Done(Ok(n)), t]);
    VoidedWithoutMirror(db, s', e, Reversal(seen, t.voucherNo, Posted), 2);
  }

  /**
   Every balanced list with a balanced proper prefix can be voided by a reversal that is not its mirror,
   because a line joins the entry after the void has read it.
   */
  lemma DividedLosesMirror(db: DB, k: PeriodKey, typed: string, lines: seq<Line>)
    requires Accepts(db, k, typed) && Balanced(lines) && !Indivisible(lines)
    ensures exists s' :: Leads(System(db, []), Three(db, k, typed, lines), s') && !VoidsProperly(s', 2)
  {
    var p :| 0 < p < |lines| && Balanced(lines[..p]);
    var s' := GrownBeforeVoid(db, k, typed, lines, p);
  }

  // ---- The exact conditions ----

  /** Drafts may arrive for creation with these lines only; all else may arrive at will. */
  predicate CreatesOnly(run: seq<Event>, lines: seq<Line>) {
    forall i :: 0 <= i < |run| && run[i].Arrive? && run[i].req.CreateDraft? ==> run[i].req.lines == lines
  }

  lemma FirstIsNotSecond(k: PeriodKey, e: Entry)
    requires KeyOf(e) == k && e.voucherNo == VoucherNo(k.period, 1)
    ensures CountKey([e], k) == 1 && !VoucherTaken([e], k, VoucherNo(k.period, 2))
  {
    assert [e][..0] == [];
    assert CountKey([e][..0], k) == 0;
    if e.voucherNo == VoucherNo(k.period, 2) {
      VoucherNoInjective(k.period, 1, 2);
    }
  }

  lemma FreshAccepts(periods: map<PeriodKey, PeriodStatus>, k: PeriodKey)
    requires !IsClosed(Fresh(periods).db, k) && (k.period == "" || ValidPeriod(k.period))
    ensures Accepts(Fresh(periods).db, k, "")
  {
    var db := Fresh(periods).db;
    var e := Written(k, VoucherNo(k.period, 1), [], Draft);
    FirstIsNotSecond(k, e);
    assert NumberFor(db, k, "") == VoucherNo(k.period, 1);
    assert AddEntry(db, e).entries == [e];
    assert NextVoucherNo(AddEntry(db, e), k) == VoucherNo(k.period, 2);
  }

  lemma SendsCreatesOnly(run: seq<Event>, db: DB, k: PeriodKey, lines: seq<Line>)
    requires Sends(run, Three(db, k, "", lines))
    ensures CreatesOnly(run, lines)
  {
  }

  ghost predicate CanReach(periods: map<PeriodKey, PeriodStatus>, lines: seq<Line>, s: System) {
    exists run :: CreatesOnly(run, lines) && Exec(Fresh(periods), run) == s
  }

  lemma LeadsIsReach(periods: map<PeriodKey, PeriodStatus>, k: PeriodKey, lines: seq<Line>, s: System)
    requires Leads(Fresh(periods), Three(Fresh(periods).db, k, "", lines), s)
    ensures CanReach(periods, lines, s)
  {
    var rs := Three(Fresh(periods).db, k, "", lines);
    var run :| Sends(run, rs) && Exec(Fresh(periods), run) == s;
    SendsCreatesOnly(run, Fresh(periods).db, k, lines);
  }

  lemma UnbalancedIsNoBalance(s: System, id: Id)
    requires LeftUnbalanced(s, id)
    ensures !PostedBalance(s.db)
  {
  }

  lemma UncleanIsReached(periods: map<PeriodKey, PeriodStatus>, k: PeriodKey, lines: seq<Line>)
    requires !IsClosed(Fresh(periods).db, k) && (k.period == "" || ValidPeriod(k.period))
    requires Balanced(lines) && !Clean(lines)
    ensures exists s :: CanReach(periods, lines, s) && !PostedBalance(s.db)
  {
    var db := Fresh(periods).db;
    FreshAccepts(periods, k);
    UncleanUnbalances(db, k, "", lines);
    var s :| Leads(System(db, []), Three(db, k, "", lines), s) && LeftUnbalanced(s, |db.entries| + 1);
    LeadsIsReach(periods, k, lines, s);
    UnbalancedIsNoBalance(s, |db.entries| + 1);
  }

  lemma DividedIsReached(periods: map<PeriodKey, PeriodStatus>, k: PeriodKey, lines: seq<Line>)
    requires !IsClosed(Fresh(periods).db, k) && (k.period == "" || ValidPeriod(k.period))
    requires Balanced(lines) && !Indivisible(lines)
    ensures exists s :: CanReach(periods, lines, s) && !VoidsProperly(s, 2)
  {
    var db := Fresh(periods).db;
    FreshAccepts(periods, k);
    DividedLosesMirror(db, k, "", lines);
    var s :| Leads(System(db, []), Three(db, k, "", lines), s) && !VoidsProperly(s, 2);
    LeadsIsReach(periods, k, lines, s);
  }

  /**
   Whatever else arrives and however it interleaves, drafts with these lines keep what is posted balanced if
   and only if the lines, when they balance at all, are clean.
   */
  lemma CleanExactly(periods: map<PeriodKey, PeriodStatus>, k: PeriodKey, lines: seq<Line>)
    requires !IsClosed(Fresh(periods).db, k) && (k.period == "" || ValidPeriod(k.period))
    ensures (Balanced(lines) ==> Clean(lines)) <==> forall s :: CanReach(periods, lines, s) ==> PostedBalance(s.db)
  {
    if Balanced(lines) && !Clean(lines) {
      UncleanIsReached(periods, k, lines);
    } else {
      forall s | CanReach(periods, lines, s) ensures PostedBalance(s.db) {
        var run :| CreatesOnly(run, lines) && Exec(Fresh(periods), run) == s;
        InterleavedRunsBalance(periods, run);
      }
    }
  }

  /**
   And every posted entry is voided with its exact mirror, or by a late void, if and only if the lines, when
   they balance at all, have no balanced proper prefix.
   */
  lemma IndivisibleExactly(periods: map<PeriodKey, PeriodStatus>, k: PeriodKey, lines: seq<Line>)
    requires !IsClosed(Fresh(periods).db, k) && (k.period == "" || ValidPeriod(k.period))
    ensures (Balanced(lines) ==> Indivisible(lines))
            <==> forall s, i: nat :: CanReach(periods, lines, s) ==> VoidsProperly(s, i)
  {
    if Balanced(lines) && !Indivisible(lines) {
      DividedIsReached(periods, k, lines);
    } else {
      if Balanced(lines) {
        IndivisibleIsClean(lines);
      }
      forall s, i: nat | CanReach(periods, lines, s) ensures VoidsProperly(s, i) {
        var run :| CreatesOnly(run, lines) && Exec(Fresh(periods), run) == s;
        PostedToVoided(periods, run, i);
      }
    }
  }
}
