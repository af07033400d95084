/** The trial balance and the account balance of a list of posted lines. */
module TrialBalance {
  import opened Prelude
  import opened Ledger
  import opened Grouping

  datatype Row = Row(code: string, name: string, debit: int, credit: int, net: int)

  function RowAccount(r: Row): Account { (r.code, r.name) }

  function RowDebit(r: Row): int { r.debit }

  function RowCredit(r: Row): int { r.credit }

  /** What a trial balance row must say about the lines. */
  predicate RowOf(lines: seq<Line>, r: Row) {
    && r.debit == SumOf(lines, AccountOf, RowAccount(r), LineDebit)
    && r.credit == SumOf(lines, AccountOf, RowAccount(r), LineCredit)
    && r.net == r.debit - r.credit
  }

  predicate CodeLe(a: Account, b: Account) { StringLe(a.0, b.0) }

  lemma CodeOrder()
    ensures TotalOrder(CodeLe)
  {
    forall a: Account, b: Account ensures CodeLe(a, b) || CodeLe(b, a) {
      StringLeTotal(a.0, b.0);
    }
    forall a: Account, b: Account, c: Account | CodeLe(a, b) && CodeLe(b, c) ensures CodeLe(a, c) {
      StringLeTransitive(a.0, b.0, c.0);
    }
  }

  ghost predicate Mentions(lines: seq<Line>, a: Account) {
    exists l :: l in lines && AccountOf(l) == a
  }

  ghost predicate HasRow(rows: seq<Row>, a: Account) {
    exists i :: 0 <= i < |rows| && RowAccount(rows[i]) == a
  }

  lemma MentionsSnoc(lines: seq<Line>, line: Line)
    ensures forall a :: Mentions(lines + [line], a) <==> Mentions(lines, a) || a == AccountOf(line)
  {
    forall a
      ensures Mentions(lines + [line], a) <==> Mentions(lines, a) || a == AccountOf(line)
    {
      assert line in lines + [line];
    }
  }

  lemma MentionsPermutes(xs: seq<Line>, ys: seq<Line>)
    requires multiset(xs) == multiset(ys)
    ensures forall a :: Mentions(xs, a) <==> Mentions(ys, a)
  {
    assert forall l :: l in xs <==> l in multiset(xs);
    assert forall l :: l in ys <==> l in multiset(ys);
  }

  /** One row for each account that occurs, holding its sums. */
  ghost predicate Grouped(lines: seq<Line>, rowsByAccount: map<Account, Row>) {
    && (forall a :: a in rowsByAccount <==> Mentions(lines, a))
    && (forall a :: a in rowsByAccount ==> RowAccount(rowsByAccount[a]) == a && RowOf(lines, rowsByAccount[a]))
  }

  lemma {:induction false} UnmentionedSums(lines: seq<Line>, a: Account)
    requires !Mentions(lines, a)
    ensures SumOf(lines, AccountOf, a, LineDebit) == 0 && SumOf(lines, AccountOf, a, LineCredit) == 0
  {
    if lines != [] {
      assert lines[|lines| - 1] in lines;
      UnmentionedSums(lines[..|lines| - 1], a);
    }
  }

  lemma SumOfSnoc(lines: seq<Line>, line: Line, a: Account)
    ensures forall f: Line -> int :: SumOf(lines + [line], AccountOf, a, f)
                                     == SumOf(lines, AccountOf, a, f) + if AccountOf(line) == a then f(line) else 0
  {
    assert (lines + [line])[..|lines|] == lines;
  }

  lemma GroupedSnoc(lines: seq<Line>, m: map<Account, Row>, line: Line, row: Row)
    requires Grouped(lines, m)
    requires var k := AccountOf(line);
             var was := if k in m then m[k] else Row(k.0, k.1, 0, 0, 0);
             RowAccount(row) == k && row.debit == was.debit + line.debit && row.credit == was.credit + line.credit
             && row.net == row.debit - row.credit
    ensures Grouped(lines + [line], m[AccountOf(line) := row])
  {
    var k, m' := AccountOf(line), m[AccountOf(line) := row];
    MentionsSnoc(lines, line);
    forall a | a in m'
      ensures RowAccount(m'[a]) == a && RowOf(lines + [line], m'[a])
    {
      SumOfSnoc(lines, line, a);
      if a !in m {
        UnmentionedSums(lines, a);
      }
    }
  }

  method GroupByAccount(lines: seq<Line>) returns (rowsByAccount: map<Account, Row>)
    ensures Grouped(lines, rowsByAccount)
  {
    rowsByAccount := map[];
    for n := 0 to |lines|
      invariant Grouped(lines[..n], rowsByAccount)
    {
      var line := lines[n];
      var k := AccountOf(line);
      var row := if k in rowsByAccount then rowsByAccount[k] else Row(k.0, k.1, 0, 0, 0);
      row := row.(debit := row.debit + line.debit, credit := row.credit + line.credit);
      row := row.(net := row.debit - row.credit);
      GroupedSnoc(lines[..n], rowsByAccount, line, row);
      assert lines[..n + 1] == lines[..n] + [line];
      rowsByAccount := rowsByAccount[k := row];
    }
    assert lines[..|lines|] == lines;
  }

  method SortedAccounts(rowsByAccount: map<Account, Row>) returns (keys: seq<Account>)
    ensures Distinct(keys) && SortedBy(keys, CodeLe)
    ensures forall a :: a in keys <==> a in rowsByAccount
  {
    var unsorted := KeysOf(rowsByAccount);
    CodeOrder();
    keys := Sort(unsorted, CodeLe);
    PermutationKeepsDistinct(unsorted, keys);
  }

  method TotalRows(ghost lines: seq<Line>, keys: seq<Account>, rowsByAccount: map<Account, Row>)
    returns (rows: seq<Row>, totalDebit: int, totalCredit: int)
    requires forall a | a in keys :: a in rowsByAccount && RowAccount(rowsByAccount[a]) == a
                                     && RowOf(lines, rowsByAccount[a])
    ensures |rows| == |keys| && forall i :: 0 <= i < |keys| ==> rows[i] == rowsByAccount[keys[i]]
    ensures totalDebit == Sum(rows, RowDebit) == SumGroups(lines, AccountOf, keys, LineDebit)
    ensures totalCredit == Sum(rows, RowCredit) == SumGroups(lines, AccountOf, keys, LineCredit)
  {
    rows, totalDebit, totalCredit := [], 0, 0;
    for n := 0 to |keys|
      invariant |rows| == n
      invariant forall i :: 0 <= i < n ==> rows[i] == rowsByAccount[keys[i]]
      invariant totalDebit == Sum(rows, RowDebit) == SumGroups(lines, AccountOf, keys[..n], LineDebit)
      invariant totalCredit == Sum(rows, RowCredit) == SumGroups(lines, AccountOf, keys[..n], LineCredit)
    {
      var row := rowsByAccount[keys[n]];
      assert keys[..n + 1][..n] == keys[..n];
      assert (rows + [row])[..n] == rows;
      rows := rows + [row];
      totalDebit := totalDebit + row.debit;
      totalCredit := totalCredit + row.credit;
    }
    assert keys[..|keys|] == keys;
  }

  lemma RowsCover(lines: seq<Line>, keys: seq<Account>, rows: seq<Row>)
    requires |rows| == |keys| && forall i :: 0 <= i < |keys| ==> RowAccount(rows[i]) == keys[i]
    requires forall a :: a in keys <==> Mentions(lines, a)
    ensures forall a :: HasRow(rows, a) <==> Mentions(lines, a)
  {
    forall a
      ensures HasRow(rows, a) <==> a in keys
    {
      if a in keys {
        var i :| 0 <= i < |keys| && keys[i] == a;
        assert RowAccount(rows[i]) == a;
      }
    }
  }

  /**
   One row for each account, ordered by account code; each row is the sum of its lines, and the totals are
   the sums of all lines.
   */
  method TrialBalance(lines: seq<Line>)
    returns (rows: seq<Row>, totalDebit: int, totalCredit: int, balanced: bool)
    ensures forall i, j :: 0 <= i < j < |rows| ==> RowAccount(rows[i]) != RowAccount(rows[j])
    ensures forall i, j :: 0 <= i < j < |rows| ==> StringLe(rows[i].code, rows[j].code)
    ensures forall i :: 0 <= i < |rows| ==> RowOf(lines, rows[i])
    ensures forall a :: HasRow(rows, a) <==> Mentions(lines, a)
    ensures totalDebit == Debits(lines) == Sum(rows, RowDebit)
    ensures totalCredit == Credits(lines) == Sum(rows, RowCredit)
    ensures balanced == Balanced(lines)
  {
    var rowsByAccount := GroupByAccount(lines);
    var keys := SortedAccounts(rowsByAccount);
    rows, totalDebit, totalCredit := TotalRows(lines, keys, rowsByAccount);
    RowsCover(lines, keys, rows);
    forall i, j | 0 <= i < j < |rows|
      ensures StringLe(rows[i].code, rows[j].code)
    {
      assert CodeLe(keys[i], keys[j]);
    }
    forall l | l in lines
      ensures AccountOf(l) in keys
    {
      assert Mentions(lines, AccountOf(l));
    }
    GroupsAddUp(lines, AccountOf, keys, LineDebit);
    GroupsAddUp(lines, AccountOf, keys, LineCredit);
    balanced := totalDebit == totalCredit;
  }

  // ---- Account balance ----

  datatype BalanceRow = BalanceRow(code: string, name: string, debit: int, credit: int,
                                   endingDebit: int, endingCredit: int)

  function EndingDebit(b: BalanceRow): int { b.endingDebit }

  function EndingCredit(b: BalanceRow): int { b.endingCredit }

  /** The balance stands on one side only, and that side is the sign of the net amount. */
  predicate EndsOnOneSide(r: Row, b: BalanceRow) {
    && b.code == r.code && b.name == r.name && b.debit == r.debit && b.credit == r.credit
    && b.endingDebit >= 0 && b.endingCredit >= 0
    && (b.endingDebit == 0 || b.endingCredit == 0)
    && b.endingDebit - b.endingCredit == r.net
  }

  method EndingBalances(rows: seq<Row>) returns (balances: seq<BalanceRow>)
    requires forall i :: 0 <= i < |rows| ==> rows[i].net == rows[i].debit - rows[i].credit
    ensures |balances| == |rows|
    ensures forall i :: 0 <= i < |rows| ==> EndsOnOneSide(rows[i], balances[i])
    ensures Sum(balances, EndingDebit) - Sum(balances, EndingCredit) == Sum(rows, RowDebit) - Sum(rows, RowCredit)
  {
    balances := [];
    for n := 0 to |rows|
      invariant |balances| == n
      invariant forall i :: 0 <= i < n ==> EndsOnOneSide(rows[i], balances[i])
      invariant Sum(balances, EndingDebit) - Sum(balances, EndingCredit)
                == Sum(rows[..n], RowDebit) - Sum(rows[..n], RowCredit)
    {
      var row := rows[n];
      assert rows[..n + 1][..n] == rows[..n];
      var b := BalanceRow(row.code, row.name, row.debit, row.credit, 0, 0);
      if row.net >= 0 {
        b := b.(endingDebit := row.net);
      } else {
        b := b.(endingCredit := -row.net);
      }
      assert (balances + [b])[..n] == balances;
      balances := balances + [b];
    }
    assert rows[..|rows|] == rows;
  }
}
