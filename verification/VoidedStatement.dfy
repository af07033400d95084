/** Voiding an entry and the statements built from the posted lines. */
module VoidedStatement {
  import L = Ledger
  import opened Prelude
  import opened Report
  import SeededProfit
  import Transitions
  import VoidEffects

  /** The amount on the side that the line's direction names. */
  function SideAmount(l: L.Line): int { if l.direction == L.DEBIT then l.debit else l.credit }

  /** What the report builder is given for a posted line. */
  function ReportLine(l: L.Line): Line { Line(l.code, l.direction, SideAmount(l)) }

  /** That is its account, its direction, and the column this direction names. */
  lemma ReportLineShows(l: L.Line)
    ensures var r := ReportLine(l);
            && r.account == l.code && r.direction == l.direction
            && (l.direction == "debit" ==> r.amount == l.debit) && (l.direction != "debit" ==> r.amount == l.credit)
  {
  }

  function ReportLines(lines: seq<L.Line>): seq<Line> {
    if lines == [] then [] else ReportLines(lines[..|lines| - 1]) + [ReportLine(lines[|lines| - 1])]
  }

  /** The same with the direction forgotten. */
  function Undirected(lines: seq<L.Line>): seq<Line> {
    if lines == [] then []
    else
      var l := lines[|lines| - 1];
      Undirected(lines[..|lines| - 1]) + [Line(l.code, "", SideAmount(l))]
  }

  predicate IgnoresDirection(ms: seq<Mapping>) {
    forall i :: 0 <= i < |ms| ==> ms[i].selector.direction == "" || ms[i].selector.direction == "either"
  }

  // ---- Mappings that do not look at the direction ----

  lemma {:induction false} UndirectedLine(l: Line, ms: seq<Mapping>, code: string)
    requires IgnoresDirection(ms)
    ensures LineSum(l.(direction := ""), ms, code) == LineSum(l, ms, code)
    ensures LineTouches(l.(direction := ""), ms, code) <==> LineTouches(l, ms, code)
  {
    forall i | 0 <= i < |ms|
      ensures Hits(l.(direction := ""), ms[i], code) <==> Hits(l, ms[i], code)
    {
    }
    UndirectedLineSum(l, ms, code);
  }

  lemma {:induction false} UndirectedLineSum(l: Line, ms: seq<Mapping>, code: string)
    requires IgnoresDirection(ms)
    ensures LineSum(l.(direction := ""), ms, code) == LineSum(l, ms, code)
  {
    if ms != [] {
      UndirectedLineSum(l, ms[..|ms| - 1], code);
      assert Hits(l.(direction := ""), ms[|ms| - 1], code) <==> Hits(l, ms[|ms| - 1], code);
    }
  }

  lemma {:induction false} UndirectedAmounts(lines: seq<L.Line>, ms: seq<Mapping>, code: string)
    requires IgnoresDirection(ms)
    ensures MatchSum(Undirected(lines), ms, code) == MatchSum(ReportLines(lines), ms, code)
    ensures Touched(Undirected(lines), ms, code) <==> Touched(ReportLines(lines), ms, code)
  {
    if lines != [] {
      var n := |lines| - 1;
      UndirectedAmounts(lines[..n], ms, code);
      UndirectedLine(ReportLine(lines[n]), ms, code);
      LastTouches(Undirected(lines), ms, code);
      LastTouches(ReportLines(lines), ms, code);
    }
  }

  lemma LastTouches(lines: seq<Line>, ms: seq<Mapping>, code: string)
    requires lines != []
    ensures var n := |lines| - 1;
            Touched(lines, ms, code) <==> Touched(lines[..n], ms, code) || LineTouches(lines[n], ms, code)
  {
    TouchedSnoc(lines, |lines| - 1, ms, code);
    assert lines[..|lines|] == lines;
  }

  lemma UndirectedStatement(ms: seq<Mapping>, lines: seq<L.Line>, literals: Amounts)
    requires IgnoresDirection(ms)
    ensures Evaluated(ms, Undirected(lines), literals) == Evaluated(ms, ReportLines(lines), literals)
  {
    forall code
      ensures Touched(Undirected(lines), ms, code) <==> Touched(ReportLines(lines), ms, code)
      ensures MatchSum(Undirected(lines), ms, code) == MatchSum(ReportLines(lines), ms, code)
    {
      UndirectedAmounts(lines, ms, code);
    }
    assert AmountsOf(Undirected(lines), ms) == AmountsOf(ReportLines(lines), ms);
  }

  // ---- Posted lines after a void ----

  lemma {:induction false} UndirectedConcat(a: seq<L.Line>, b: seq<L.Line>)
    ensures Undirected(a + b) == Undirected(a) + Undirected(b)
  {
    if b == [] {
      assert a + b == a;
    } else {
      assert (a + b)[..|a + b| - 1] == a + b[..|b| - 1];
      UndirectedConcat(a, b[..|b| - 1]);
    }
  }

  /** A reversal swaps direction and columns together, so it shows the builder the same amounts again. */
  lemma {:induction false} MirrorShowsTheSame(lines: seq<L.Line>)
    ensures Undirected(L.Mirror(lines)) == Undirected(lines)
  {
    if lines != [] {
      var n := |lines| - 1;
      assert L.Mirror(lines)[..n] == L.Mirror(lines[..n]);
      MirrorShowsTheSame(lines[..n]);
    }
  }

  /** The lines of a posted row sit in one place among the posted lines, and voiding the row cuts them out. */
  lemma {:induction false} PostedAround(es: seq<L.Entry>, id: nat, k: L.PeriodKey)
    returns (before: seq<L.Line>, after: seq<L.Line>)
    requires id < |es| && es[id].status == L.Posted && L.KeyOf(es[id]) == k
    ensures L.PostedLines(es, k) == before + es[id].lines + after
    ensures L.PostedLines(es[id := es[id].(status := L.Voided)], k) == before + after
  {
    var n := |es| - 1;
    var es' := es[id := es[id].(status := L.Voided)];
    if id == n {
      before, after := L.PostedLines(es[..n], k), [];
      assert es'[..n] == es[..n];
    } else {
      before, after := PostedAround(es[..n], id, k);
      after := after + if L.KeyOf(es[n]) == k && es[n].status == L.Posted then es[n].lines else [];
      assert es'[..n] == es[..n][id := es[id].(status := L.Voided)];
    }
  }

  lemma UndirectedMiddle(before: seq<L.Line>, middle: seq<L.Line>, after: seq<L.Line>)
    ensures multiset(Undirected(before + middle + after)) == multiset(Undirected(before + after + L.Mirror(middle)))
  {
    UndirectedConcat(before + middle, after);
    UndirectedConcat(before, middle);
    UndirectedConcat(before + after, L.Mirror(middle));
    UndirectedConcat(before, after);
    MirrorShowsTheSame(middle);
  }

  lemma {:induction false} SameUndirected(a: seq<L.Line>, b: seq<L.Line>, ms: seq<Mapping>, literals: Amounts)
    requires IgnoresDirection(ms) && multiset(Undirected(a)) == multiset(Undirected(b))
    ensures Evaluated(ms, ReportLines(a), literals) == Evaluated(ms, ReportLines(b), literals)
  {
    StatementIgnoresLineOrder(ms, Undirected(a), Undirected(b), literals);
    UndirectedStatement(ms, a, literals);
    UndirectedStatement(ms, b, literals);
  }

  lemma {:induction false} CutAndMirrored(es: seq<L.Entry>, id: nat)
    requires id < |es| && es[id].status == L.Posted
    ensures var k := L.KeyOf(es[id]);
            var cut := es[id := es[id].(status := L.Voided)];
            multiset(Undirected(L.PostedLines(cut, k) + L.Mirror(es[id].lines)))
            == multiset(Undirected(L.PostedLines(es, k)))
  {
    var before, after := PostedAround(es, id, L.KeyOf(es[id]));
    UndirectedMiddle(before, es[id].lines, after);
  }

  /** The undirected lines of a period before and after a void differ in order only. */
  lemma VoidKeepsUndirected(db: L.DB, entity: string, id: L.Id)
    requires Transitions.EntryAt(db, id, L.Posted) && L.VoidCall(db, entity, id).1.Ok?
    ensures var k := L.KeyOf(db.entries[id]);
            multiset(Undirected(L.PostedLines(L.VoidCall(db, entity, id).0.entries, k)))
            == multiset(Undirected(L.PostedLines(db.entries, k)))
  {
    VoidEffects.VoidOfPosted(db, entity, id);
    CutAndMirrored(db.entries, id);
  }

  /**
   Under mappings that do not look at the direction, voiding a posted entry leaves every statement of its
   period as it was: the dropped entry and its reversal show the same accounts and amounts.
   */
  lemma VoidLeavesStatement(db: L.DB, entity: string, id: L.Id, ms: seq<Mapping>, literals: Amounts)
    requires Transitions.EntryAt(db, id, L.Posted) && L.VoidCall(db, entity, id).1.Ok?
    requires IgnoresDirection(ms)
    ensures var k := L.KeyOf(db.entries[id]);
            Evaluated(ms, ReportLines(L.PostedLines(L.VoidCall(db, entity, id).0.entries, k)), literals)
            == Evaluated(ms, ReportLines(L.PostedLines(db.entries, k)), literals)
  {
    var k := L.KeyOf(db.entries[id]);
    VoidKeepsUndirected(db, entity, id);
    SameUndirected(L.PostedLines(L.VoidCall(db, entity, id).0.entries, k), L.PostedLines(db.entries, k), ms, literals);
  }

  /** So the seeded profit statement, and the net profit on it, do not notice voids at all. */
  lemma SeededProfitIgnoresVoids(db: L.DB, entity: string, id: L.Id)
    requires Transitions.EntryAt(db, id, L.Posted) && L.VoidCall(db, entity, id).1.Ok?
    ensures var k := L.KeyOf(db.entries[id]);
            var before := ReportLines(L.PostedLines(db.entries, k));
            var after := ReportLines(L.PostedLines(L.VoidCall(db, entity, id).0.entries, k));
            && Evaluated(SeededProfit.SEEDED, before, map[]).Success?
            && Evaluated(SeededProfit.SEEDED, after, map[]).Success?
            && SeededProfit.Final(after) == SeededProfit.Final(before)
            && Get(SeededProfit.Final(after), "net_profit") == Get(SeededProfit.Final(before), "net_profit")
            && Get(SeededProfit.Final(after), "net_profit") == Sum(before, SeededProfit.Weighted)
  {
    var k := L.KeyOf(db.entries[id]);
    VoidLeavesStatement(db, entity, id, SeededProfit.SEEDED, map[]);
    SeededProfit.SeededNetProfit(ReportLines(L.PostedLines(L.VoidCall(db, entity, id).0.entries, k)));
    SeededProfit.SeededNetProfit(ReportLines(L.PostedLines(db.entries, k)));
  }
}
