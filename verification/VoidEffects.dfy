/** What voiding does to a trial balance, account by account. */
module VoidEffects {
  import opened Prelude
  import opened Ledger
  import opened Grouping
  import opened TrialBalance
  import opened Balance
  import opened Transitions

  /** A column of the trial balance of period k: the debits or the credits of one account. */
  function Column(es: seq<Entry>, k: PeriodKey, a: Account, f: Line -> int): int {
    SumOf(PostedLines(es, k), AccountOf, a, f)
  }

  lemma ColumnSnoc(es: seq<Entry>, e: Entry, k: PeriodKey, a: Account, f: Line -> int)
    ensures Column(es + [e], k, a, f)
            == Column(es, k, a, f)
               + if KeyOf(e) == k && e.status == Posted then SumOf(e.lines, AccountOf, a, f) else 0
  {
    assert (es + [e])[..|es|] == es;
    if KeyOf(e) == k && e.status == Posted {
      SumOfConcat(PostedLines(es, k), e.lines, AccountOf, a, f);
    } else {
      assert PostedLines(es + [e], k) == PostedLines(es, k);
    }
  }

  /** Voiding a posted row takes its lines out of every column of its period. */
  lemma {:induction false} ColumnVoided(es: seq<Entry>, id: nat, k: PeriodKey, a: Account, f: Line -> int)
    requires id < |es| && es[id].status == Posted && KeyOf(es[id]) == k
    ensures Column(es[id := es[id].(status := Voided)], k, a, f)
            == Column(es, k, a, f) - SumOf(es[id].lines, AccountOf, a, f)
  {
    var n := |es| - 1;
    var es' := es[id := es[id].(status := Voided)];
    ColumnSnoc(es[..n], es[n], k, a, f);
    ColumnSnoc(es'[..n], es'[n], k, a, f);
    assert es == es[..n] + [es[n]] && es' == es'[..n] + [es'[n]];
    if id < n {
      ColumnVoided(es[..n], id, k, a, f);
      assert es'[..n] == es[..n][id := es[id].(status := Voided)];
    } else {
      assert es'[..n] == es[..n];
    }
  }

  /** The posted entry is voided, its mirror posted under a fresh row, and no other row changes. */
  lemma VoidOfPosted(db: DB, entity: string, id: Id)
    requires EntryAt(db, id, Posted) && VoidCall(db, entity, id).1.Ok?
    ensures var es' := VoidCall(db, entity, id).0.entries;
            && |es'| == |db.entries| + 1
            && es'[..|db.entries|] == db.entries[id := db.entries[id].(status := Voided)]
            && var rev := es'[|db.entries|];
               rev.status == Posted && KeyOf(rev) == KeyOf(db.entries[id]) && rev.lines == Mirror(db.entries[id].lines)
  {
    var e := db.entries[id];
    var rev := Reversal(e, NextVoucherNo(db, KeyOf(e)), Posted);
    assert (db.entries + [rev])[id := e.(status := Voided)][..|db.entries|] == db.entries[id := e.(status := Voided)];
  }

  /**
   Voiding a posted entry both drops it and posts its reversal: each account's debits lose the entry's debits
   and gain its credits, and the other way round, so its net amount moves by minus twice the entry's.
   */
  lemma VoidMovesTwice(db: DB, entity: string, id: Id, a: Account)
    requires EntryAt(db, id, Posted) && VoidCall(db, entity, id).1.Ok?
    ensures var e := db.entries[id];
            var es, es' := db.entries, VoidCall(db, entity, id).0.entries;
            var debit, credit := SumOf(e.lines, AccountOf, a, LineDebit), SumOf(e.lines, AccountOf, a, LineCredit);
            && Column(es', KeyOf(e), a, LineDebit) == Column(es, KeyOf(e), a, LineDebit) - debit + credit
            && Column(es', KeyOf(e), a, LineCredit) == Column(es, KeyOf(e), a, LineCredit) - credit + debit
            && Column(es', KeyOf(e), a, LineDebit) - Column(es', KeyOf(e), a, LineCredit)
               == Column(es, KeyOf(e), a, LineDebit) - Column(es, KeyOf(e), a, LineCredit) - 2 * (debit - credit)
  {
    var e, n := db.entries[id], |db.entries|;
    var es' := VoidCall(db, entity, id).0.entries;
    VoidOfPosted(db, entity, id);
    assert es' == es'[..n] + [es'[n]];
    ColumnSnoc(es'[..n], es'[n], KeyOf(e), a, LineDebit);
    ColumnSnoc(es'[..n], es'[n], KeyOf(e), a, LineCredit);
    ColumnVoided(db.entries, id, KeyOf(e), a, LineDebit);
    ColumnVoided(db.entries, id, KeyOf(e), a, LineCredit);
    MirrorColumns(e.lines, a);
  }

  /** Voiding an entry and then its reversal restores every column of the trial balance. */
  lemma VoidingTheReversalRestores(db: DB, entity: string, id: Id, a: Account)
    requires EntryAt(db, id, Posted) && VoidCall(db, entity, id).1.Ok?
    requires VoidCall(VoidCall(db, entity, id).0, entity, |db.entries|).1.Ok?
    ensures var k := KeyOf(db.entries[id]);
            var es' := VoidCall(VoidCall(db, entity, id).0, entity, |db.entries|).0.entries;
            && Column(es', k, a, LineDebit) == Column(db.entries, k, a, LineDebit)
            && Column(es', k, a, LineCredit) == Column(db.entries, k, a, LineCredit)
  {
    VoidOfPosted(db, entity, id);
    VoidMovesTwice(db, entity, id, a);
    VoidMovesTwice(VoidCall(db, entity, id).0, entity, |db.entries|, a);
    MirrorColumns(db.entries[id].lines, a);
  }

  lemma AddedLines(es: seq<Entry>, e: Entry, k: PeriodKey)
    ensures PostedLines(es + [e], k) == PostedLines(es, k) + if PostedOf(e, k) then e.lines else []
  {
    assert (es + [e])[..|es|] == es;
  }

  /** A void leaves every other period's columns alone. */
  lemma VoidIsLocal(db: DB, entity: string, id: Id, k: PeriodKey)
    requires EntryAt(db, id, Posted) && KeyOf(db.entries[id]) != k
    ensures PostedLines(VoidCall(db, entity, id).0.entries, k) == PostedLines(db.entries, k)
  {
    if VoidCall(db, entity, id).1.Ok? {
      VoidOfPosted(db, entity, id);
      var cut := db.entries[id := db.entries[id].(status := Voided)];
      PostedLinesSame(db.entries, cut, k);
      AddedLines(cut, VoidCall(db, entity, id).0.entries[|db.entries|], k);
    }
  }
}
