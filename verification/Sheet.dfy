/** Statements whose subtotals are plain sums and whose leaves select accounts by prefix: totals by account. */
module Sheet {
  import opened Prelude
  import opened Report
  import opened SeededProfit

  // ---- Formulas that only add ----

  /** The tokens of "a + b + c". */
  function Plus(codes: seq<string>): seq<string>
    requires codes != []
  {
    if |codes| == 1 then codes else Plus(codes[..|codes| - 1]) + ["+", codes[|codes| - 1]]
  }

  lemma {:induction false} PlusTokens(codes: seq<string>)
    requires codes != []
    ensures |Plus(codes)| == 2 * |codes| - 1 && PlusMinus(Plus(codes))
  {
    if |codes| > 1 {
      var n := |codes| - 1;
      PlusTokens(codes[..n]);
      var tokens := Plus(codes);
      forall j | 0 <= j < |tokens| && j % 2 == 1 ensures tokens[j] == "+" || tokens[j] == "-" {
        if j < 2 * n - 1 {
          assert tokens[j] == Plus(codes[..n])[j];
        }
      }
    }
  }

  lemma {:induction false} PlusAt(codes: seq<string>, j: nat)
    requires j < |codes|
    ensures |Plus(codes)| == 2 * |codes| - 1
    ensures Plus(codes)[2 * j] == codes[j] && (j > 0 ==> Plus(codes)[2 * j - 1] == "+")
  {
    PlusTokens(codes);
    var n := |codes| - 1;
    if n > 0 {
      PlusTokens(codes[..n]);
      if j < n {
        PlusAt(codes[..n], j);
      }
    }
  }

  function SumCodes(codes: seq<string>, a: Amounts): int {
    if codes == [] then 0 else SumCodes(codes[..|codes| - 1], a) + Get(a, codes[|codes| - 1])
  }

  lemma {:induction false} PlusTerms(codes: seq<string>, n: nat, a: Amounts)
    requires n < |codes| && |Plus(codes)| == 2 * |codes| - 1
    ensures Terms(Plus(codes), n, a) == SumCodes(codes[..n + 1], a)
  {
    assert codes[..n + 1][..n] == codes[..n];
    PlusAt(codes, n);
    if n > 0 {
      PlusTerms(codes, n - 1, a);
    }
  }

  lemma PlusValue(codes: seq<string>, a: Amounts)
    requires codes != []
    ensures Eval(Plus(codes), a, map[]) == Success(SumCodes(codes, a))
  {
    PlusTokens(codes);
    PlusMinusValue(Plus(codes), |codes| - 1, a);
    PlusTerms(codes, |codes| - 1, a);
    assert codes[..|codes|] == codes;
  }

  lemma PlusOperands(codes: seq<string>, t: string)
    requires codes != []
    ensures Operand(Plus(codes), t) ==> exists n :: 0 <= n < |codes| && codes[n] == t
  {
    PlusTokens(codes);
    if j :| 0 <= j < |Plus(codes)| && j % 2 == 0 && Plus(codes)[j] == t {
      PlusAt(codes, j / 2);
    }
  }

  // ---- Mappings by position ----

  predicate CodesDiffer(ms: seq<Mapping>) {
    forall i, j :: 0 <= i < j < |ms| ==> ms[i].code != ms[j].code
  }

  /** Selects accounts by prefix and by nothing else. */
  predicate ByPrefix(m: Mapping) {
    !m.isSubtotal && m.selector.prefixes != [] && m.selector.direction == "" && m.selector.excludes == []
  }

  predicate Within(ms: seq<Mapping>, at: seq<nat>) { forall n :: 0 <= n < |at| ==> at[n] < |ms| }

  predicate Leaves(ms: seq<Mapping>, at: seq<nat>) {
    Within(ms, at) && forall n :: 0 <= n < |at| ==> ByPrefix(ms[at[n]])
  }

  /** Mapping s is the sum of the mappings at these earlier positions, which have these codes. */
  predicate Totals(ms: seq<Mapping>, s: nat, at: seq<nat>, codes: seq<string>) {
    && s < |ms| && at != [] && |codes| == |at|
    && (forall n :: 0 <= n < |at| ==> at[n] < s && ms[at[n]].code == codes[n])
    && ms[s].isSubtotal && ms[s].formula == Some(Plus(codes))
  }

  ghost predicate HasTotals(ms: seq<Mapping>, i: nat) { exists at, codes :: Totals(ms, i, at, codes) }

  ghost predicate Additive(ms: seq<Mapping>) {
    && CodesDiffer(ms)
    && forall i :: 0 <= i < |ms| && Computed(ms[i]) ==> HasTotals(ms, i)
  }

  lemma OperandIsEarlier(ms: seq<Mapping>, i: nat, j: nat)
    requires Additive(ms) && i <= j < |ms| && Computed(ms[i])
    ensures !Operand(ms[i].formula.value, ms[j].code)
  {
    assert HasTotals(ms, i);
    var at, codes :| Totals(ms, i, at, codes);
    PlusOperands(codes, ms[j].code);
    forall n | 0 <= n < |codes| ensures codes[n] != ms[j].code {
      assert at[n] < j && ms[at[n]].code == codes[n];
    }
  }

  lemma AdditiveIsWellOrdered(ms: seq<Mapping>)
    requires Additive(ms)
    ensures WellOrdered(ms)
  {
    forall i, j | 0 <= i <= j < |ms| && Computed(ms[i]) && Computed(ms[j])
      ensures !Operand(ms[i].formula.value, ms[j].code)
    {
      OperandIsEarlier(ms, i, j);
    }
  }

  lemma AdditiveEvaluates(ms: seq<Mapping>, lines: seq<Line>)
    requires Additive(ms)
    ensures Evaluated(ms, lines, map[]).Success?
  {
    forall i | 0 <= i < |ms| && Computed(ms[i]) ensures PlusMinus(ms[i].formula.value) {
      assert HasTotals(ms, i);
      var at, codes :| Totals(ms, i, at, codes);
      PlusTokens(codes);
    }
    PlusMinusPasses(ms, |ms|, AmountsOf(lines, ms), map[]);
  }

  // ---- Amounts by position ----

  /** What the statement says for mapping i. */
  function Stated(ms: seq<Mapping>, lines: seq<Line>, i: nat): int
    requires Evaluated(ms, lines, map[]).Success? && i < |ms|
  {
    Get(Evaluated(ms, lines, map[]).value, ms[i].code)
  }

  function StatedSum(ms: seq<Mapping>, lines: seq<Line>, at: seq<nat>): int
    requires Evaluated(ms, lines, map[]).Success? && Within(ms, at)
  {
    if at == [] then 0 else StatedSum(ms, lines, at[..|at| - 1]) + Stated(ms, lines, at[|at| - 1])
  }

  lemma {:induction false} CodesSum(ms: seq<Mapping>, lines: seq<Line>, at: seq<nat>, codes: seq<string>)
    requires Evaluated(ms, lines, map[]).Success? && Within(ms, at)
    requires |at| == |codes| && forall n :: 0 <= n < |at| ==> ms[at[n]].code == codes[n]
    ensures SumCodes(codes, Evaluated(ms, lines, map[]).value) == StatedSum(ms, lines, at)
  {
    if at != [] {
      CodesSum(ms, lines, at[..|at| - 1], codes[..|at| - 1]);
    }
  }

  lemma SubtotalIsSum(ms: seq<Mapping>, lines: seq<Line>, s: nat, at: seq<nat>, codes: seq<string>)
    requires Additive(ms) && Totals(ms, s, at, codes)
    ensures Evaluated(ms, lines, map[]).Success? && Within(ms, at)
    ensures Stated(ms, lines, s) == StatedSum(ms, lines, at)
  {
    AdditiveEvaluates(ms, lines);
    AdditiveIsWellOrdered(ms);
    PassSolvesEquations(ms, AmountsOf(lines, ms), map[], s);
    PlusValue(codes, Evaluated(ms, lines, map[]).value);
    CodesSum(ms, lines, at, codes);
  }

  lemma {:induction false} StatedConcat(ms: seq<Mapping>, lines: seq<Line>, a: seq<nat>, b: seq<nat>)
    requires Evaluated(ms, lines, map[]).Success? && Within(ms, a) && Within(ms, b)
    ensures StatedSum(ms, lines, a + b) == StatedSum(ms, lines, a) + StatedSum(ms, lines, b)
  {
    if b == [] {
      assert a + b == a;
    } else {
      var n := |b| - 1;
      assert (a + b)[..|a + b| - 1] == a + b[..n];
      StatedConcat(ms, lines, a, b[..n]);
    }
  }

  lemma StatedPair(ms: seq<Mapping>, lines: seq<Line>, x: nat, y: nat)
    requires Evaluated(ms, lines, map[]).Success? && x < |ms| && y < |ms|
    ensures StatedSum(ms, lines, [x, y]) == Stated(ms, lines, x) + Stated(ms, lines, y)
  {
    assert [x, y][..1] == [x] && [x][..0] == [];
    assert StatedSum(ms, lines, [x]) == Stated(ms, lines, x);
  }

  /** The statement says for mapping s what it says for these mappings together. */
  predicate Covers(ms: seq<Mapping>, lines: seq<Line>, s: nat, at: seq<nat>)
    requires Evaluated(ms, lines, map[]).Success?
  {
    s < |ms| && Within(ms, at) && Stated(ms, lines, s) == StatedSum(ms, lines, at)
  }

  lemma TotalCovers(ms: seq<Mapping>, lines: seq<Line>, s: nat, at: seq<nat>, codes: seq<string>)
    requires Additive(ms) && Totals(ms, s, at, codes)
    ensures Evaluated(ms, lines, map[]).Success? && Covers(ms, lines, s, at)
  {
    SubtotalIsSum(ms, lines, s, at, codes);
  }

  lemma TwoCover(ms: seq<Mapping>, lines: seq<Line>, s: nat, x: nat, y: nat, codes: seq<string>,
                 a: seq<nat>, b: seq<nat>)
    requires Additive(ms) && Evaluated(ms, lines, map[]).Success? && Totals(ms, s, [x, y], codes)
    requires Covers(ms, lines, x, a) && Covers(ms, lines, y, b)
    ensures Covers(ms, lines, s, a + b)
  {
    SubtotalIsSum(ms, lines, s, [x, y], codes);
    StatedPair(ms, lines, x, y);
    StatedConcat(ms, lines, a, b);
  }

  lemma CoverAddsUp(ms: seq<Mapping>, lines: seq<Line>, s: nat, at: seq<nat>)
    requires Additive(ms) && Evaluated(ms, lines, map[]).Success? && Covers(ms, lines, s, at) && Disjoint(ms, at)
    ensures Stated(ms, lines, s) == SelectedSum(ms, at, lines)
  {
    LeavesAddUp(ms, lines, at);
  }

  // ---- Leaves ----

  predicate On(m: Mapping, account: string) {
    exists n :: 0 <= n < |m.selector.prefixes| && HasPrefix(account, m.selector.prefixes[n])
  }

  function LeafSum(m: Mapping, lines: seq<Line>): int {
    if lines == [] then 0
    else
      var l := lines[|lines| - 1];
      LeafSum(m, lines[..|lines| - 1]) + if On(m, l.account) then l.amount else 0
  }

  lemma {:induction false} MatchesAreOn(ms: seq<Mapping>, lines: seq<Line>, i: nat)
    requires CodesDiffer(ms) && i < |ms| && ByPrefix(ms[i])
    ensures MatchSum(lines, ms, ms[i].code) == LeafSum(ms[i], lines)
  {
    if lines != [] {
      var n := |lines| - 1;
      MatchesAreOn(ms, lines[..n], i);
      OneMapping(lines[n], ms, i, |ms|);
      assert ms[..|ms|] == ms;
    }
  }

  lemma LeafIsSum(ms: seq<Mapping>, lines: seq<Line>, i: nat)
    requires Additive(ms) && i < |ms| && ByPrefix(ms[i])
    ensures Evaluated(ms, lines, map[]).Success? && Stated(ms, lines, i) == LeafSum(ms[i], lines)
  {
    AdditiveEvaluates(ms, lines);
    PassKeeps(ms, 0, |ms|, AmountsOf(lines, ms), map[], ms[i].code);
    GetAmount(lines, ms, ms[i].code);
    MatchesAreOn(ms, lines, i);
  }

  // ---- No account counts twice ----

  predicate Apart(a: Mapping, b: Mapping) {
    forall m, n :: 0 <= m < |a.selector.prefixes| && 0 <= n < |b.selector.prefixes|
                   ==> a.selector.prefixes[m] != b.selector.prefixes[n]
  }

  predicate FourLong(m: Mapping) {
    forall n :: 0 <= n < |m.selector.prefixes| ==> |m.selector.prefixes[n]| == 4
  }

  /** Four-digit prefixes, none of them twice. */
  predicate Disjoint(ms: seq<Mapping>, at: seq<nat>) {
    && Leaves(ms, at)
    && (forall n :: 0 <= n < |at| ==> FourLong(ms[at[n]]))
    && (forall m, n :: 0 <= m < n < |at| ==> Apart(ms[at[m]], ms[at[n]]))
  }

  lemma ApartMeans(a: Mapping, b: Mapping, account: string)
    requires Apart(a, b) && FourLong(a) && FourLong(b)
    ensures !(On(a, account) && On(b, account))
  {
    forall m, n | 0 <= m < |a.selector.prefixes| && 0 <= n < |b.selector.prefixes|
      ensures !(HasPrefix(account, a.selector.prefixes[m]) && HasPrefix(account, b.selector.prefixes[n]))
    {
      assert a.selector.prefixes[m] != b.selector.prefixes[n];
    }
  }

  predicate OnAny(ms: seq<Mapping>, at: seq<nat>, account: string)
    requires Within(ms, at)
  {
    exists n :: 0 <= n < |at| && On(ms[at[n]], account)
  }

  /** The amounts of the lines that some of these mappings selects, whichever side they are on. */
  function SelectedSum(ms: seq<Mapping>, at: seq<nat>, lines: seq<Line>): int
    requires Within(ms, at)
  {
    if lines == [] then 0
    else
      var l := lines[|lines| - 1];
      SelectedSum(ms, at, lines[..|lines| - 1]) + if OnAny(ms, at, l.account) then l.amount else 0
  }

  lemma OnAnySnoc(ms: seq<Mapping>, at: seq<nat>, account: string)
    requires Disjoint(ms, at) && at != []
    ensures var n := |at| - 1;
            && (OnAny(ms, at, account) <==> OnAny(ms, at[..n], account) || On(ms[at[n]], account))
            && !(OnAny(ms, at[..n], account) && On(ms[at[n]], account))
  {
    var n := |at| - 1;
    if m :| 0 <= m < |at| && On(ms[at[m]], account) {
      assert m < n ==> at[..n][m] == at[m];
    }
    if m :| 0 <= m < n && On(ms[at[..n][m]], account) {
      assert at[m] == at[..n][m];
      ApartMeans(ms[at[m]], ms[at[n]], account);
    }
  }

  lemma {:induction false} SelectedSnoc(ms: seq<Mapping>, at: seq<nat>, lines: seq<Line>)
    requires Disjoint(ms, at) && at != []
    ensures var n := |at| - 1;
            SelectedSum(ms, at, lines) == SelectedSum(ms, at[..n], lines) + LeafSum(ms[at[n]], lines)
  {
    if lines != [] {
      SelectedSnoc(ms, at, lines[..|lines| - 1]);
      OnAnySnoc(ms, at, lines[|lines| - 1].account);
    }
  }

  lemma {:induction false} SelectedNothing(ms: seq<Mapping>, lines: seq<Line>)
    ensures SelectedSum(ms, [], lines) == 0
  {
    if lines != [] {
      SelectedNothing(ms, lines[..|lines| - 1]);
    }
  }

  /** Leaves without a common prefix add up every amount on their accounts, each line once. */
  lemma {:induction false} LeavesAddUp(ms: seq<Mapping>, lines: seq<Line>, at: seq<nat>)
    requires Additive(ms) && Disjoint(ms, at)
    ensures Evaluated(ms, lines, map[]).Success?
    ensures StatedSum(ms, lines, at) == SelectedSum(ms, at, lines)
  {
    AdditiveEvaluates(ms, lines);
    if at == [] {
      SelectedNothing(ms, lines);
    } else {
      var n := |at| - 1;
      LeavesAddUp(ms, lines, at[..n]);
      LeafIsSum(ms, lines, at[n]);
      SelectedSnoc(ms, at, lines);
    }
  }

  // ---- Totals by account prefix ----

  predicate HasSome(account: string, prefixes: seq<string>) {
    exists i :: 0 <= i < |prefixes| && HasPrefix(account, prefixes[i])
  }

  predicate HasSomeOf(account: string, groups: seq<seq<string>>) {
    exists n :: 0 <= n < |groups| && HasSome(account, groups[n])
  }

  /** The amounts on the accounts that begin with one of these prefixes, whichever side they are on. */
  function PrefixSum(lines: seq<Line>, groups: seq<seq<string>>): int {
    if lines == [] then 0
    else
      var l := lines[|lines| - 1];
      PrefixSum(lines[..|lines| - 1], groups) + if HasSomeOf(l.account, groups) then l.amount else 0
  }

  /** Group n holds the prefixes of the mapping at position n of the list. */
  predicate PrefixesAre(ms: seq<Mapping>, at: seq<nat>, groups: seq<seq<string>>) {
    Within(ms, at) && |groups| == |at| && forall n :: 0 <= n < |at| ==> ms[at[n]].selector.prefixes == groups[n]
  }

  lemma OnAnyIsPrefix(ms: seq<Mapping>, at: seq<nat>, groups: seq<seq<string>>, account: string)
    requires PrefixesAre(ms, at, groups)
    ensures OnAny(ms, at, account) <==> HasSomeOf(account, groups)
  {
    forall n | 0 <= n < |at| ensures On(ms[at[n]], account) <==> HasSome(account, groups[n]) {
    }
  }

  lemma {:induction false} SelectedIsPrefixSum(ms: seq<Mapping>, at: seq<nat>, groups: seq<seq<string>>,
                                               lines: seq<Line>)
    requires PrefixesAre(ms, at, groups)
    ensures SelectedSum(ms, at, lines) == PrefixSum(lines, groups)
  {
    if lines != [] {
      SelectedIsPrefixSum(ms, at, groups, lines[..|lines| - 1]);
      OnAnyIsPrefix(ms, at, groups, lines[|lines| - 1].account);
    }
  }

  // ---- Lines left out ----

  /** A total shows what the shown mappings say and all amounts on the accounts of the hidden ones around them. */
  lemma {:induction false} CoverShows(ms: seq<Mapping>, lines: seq<Line>, s: nat, left: seq<nat>, shown: seq<nat>,
                                      right: seq<nat>)
    requires Additive(ms) && Evaluated(ms, lines, map[]).Success? && Covers(ms, lines, s, left + shown + right)
    requires Within(ms, left) && Within(ms, shown) && Within(ms, right) && Disjoint(ms, left + right)
    ensures Stated(ms, lines, s) == StatedSum(ms, lines, shown) + SelectedSum(ms, left + right, lines)
  {
    StatedConcat(ms, lines, left + shown, right);
    StatedConcat(ms, lines, left, shown);
    StatedConcat(ms, lines, left, right);
    LeavesAddUp(ms, lines, left + right);
  }
}
