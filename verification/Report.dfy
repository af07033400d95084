/** The report builder: journal lines, report mappings, formulas over line codes, and one pass over subtotals. */
module Report {
  import opened Prelude
  import opened Grouping

  datatype Selector = Selector(prefixes: seq<string>, direction: string, excludes: seq<string>)

  /** formula is None where the mapping has none, else its tokens. */
  datatype Mapping = Mapping(code: string, order: int, selector: Selector, isSubtotal: bool,
                             formula: Option<seq<string>>)

  datatype Line = Line(account: string, direction: string, amount: int)

  datatype ReportError = UnsupportedOperator(op: string)

  type Amounts = map<string, int>

  // ---- Which lines a mapping selects ----

  predicate HasPrefix(s: string, p: string) { |p| <= |s| && s[..|p|] == p }

  predicate Matches(l: Line, sel: Selector) {
    && (sel.direction == "" || sel.direction == "either" || sel.direction == l.direction)
    && (forall i :: 0 <= i < |sel.excludes| ==> !HasPrefix(l.account, sel.excludes[i]))
    && (sel.prefixes == [] || exists i :: 0 <= i < |sel.prefixes| && HasPrefix(l.account, sel.prefixes[i]))
  }

  method MatchSelector(l: Line, sel: Selector) returns (matched: bool)
    ensures matched == Matches(l, sel)
  {
    if sel.direction != "" && sel.direction != "either" && sel.direction != l.direction {
      return false;
    }
    for n := 0 to |sel.excludes|
      invariant forall i :: 0 <= i < n ==> !HasPrefix(l.account, sel.excludes[i])
    {
      if HasPrefix(l.account, sel.excludes[n]) {
        return false;
      }
    }
    if sel.prefixes == [] {
      return true;
    }
    for n := 0 to |sel.prefixes|
      invariant forall i :: 0 <= i < n ==> !HasPrefix(l.account, sel.prefixes[i])
    {
      if HasPrefix(l.account, sel.prefixes[n]) {
        return true;
      }
    }
    return false;
  }

  /** What each part of a selector does: the direction, one exclusion more, one prefix more, and no prefixes. */
  lemma SelectorByParts(l: Line, sel: Selector, p: string)
    ensures Matches(l, Selector([], "", []))
    ensures Matches(l, sel)
            <==> sel.direction in { "", "either", l.direction } && Matches(l, sel.(direction := ""))
    ensures Matches(l, sel.(excludes := sel.excludes + [p])) <==> Matches(l, sel) && !(p <= l.account)
    ensures Matches(l, sel.(prefixes := [p])) <==> Matches(l, sel.(prefixes := [])) && p <= l.account
    ensures sel.prefixes != [] ==>
              (Matches(l, sel.(prefixes := sel.prefixes + [p]))
               <==> Matches(l, sel) || Matches(l, sel.(prefixes := [p])))
  {
    assert HasPrefix(l.account, p) <==> p <= l.account;
    ExcludeMore(l, sel, p);
    assert [p][0] == p;
    if sel.prefixes != [] {
      PrefixMore(l, sel, p);
    }
  }

  lemma ExcludeMore(l: Line, sel: Selector, p: string)
    ensures Matches(l, sel.(excludes := sel.excludes + [p])) <==> Matches(l, sel) && !HasPrefix(l.account, p)
  {
    var more := sel.excludes + [p];
    assert more[|sel.excludes|] == p && forall i :: 0 <= i < |sel.excludes| ==> more[i] == sel.excludes[i];
  }

  lemma PrefixMore(l: Line, sel: Selector, p: string)
    requires sel.prefixes != []
    ensures Matches(l, sel.(prefixes := sel.prefixes + [p]))
            <==> Matches(l, sel) || Matches(l, sel.(prefixes := [p]))
  {
    var more := sel.prefixes + [p];
    assert more[|sel.prefixes|] == p && [p][0] == p;
    assert forall i :: 0 <= i < |sel.prefixes| ==> more[i] == sel.prefixes[i];
  }

  predicate Hits(l: Line, m: Mapping, code: string) {
    m.code == code && !m.isSubtotal && Matches(l, m.selector)
  }

  /** What one line adds to one line code: its amount once for every mapping of that code that selects it. */
  function LineSum(l: Line, ms: seq<Mapping>, code: string): int {
    if ms == [] then 0
    else LineSum(l, ms[..|ms| - 1], code) + if Hits(l, ms[|ms| - 1], code) then l.amount else 0
  }

  /** The sum over all pairs of a line and a mapping of that code that selects it. */
  function MatchSum(lines: seq<Line>, ms: seq<Mapping>, code: string): int {
    if lines == [] then 0
    else MatchSum(lines[..|lines| - 1], ms, code) + LineSum(lines[|lines| - 1], ms, code)
  }

  predicate LineTouches(l: Line, ms: seq<Mapping>, code: string) {
    exists j :: 0 <= j < |ms| && Hits(l, ms[j], code)
  }

  predicate Touched(lines: seq<Line>, ms: seq<Mapping>, code: string) {
    exists i :: 0 <= i < |lines| && LineTouches(lines[i], ms, code)
  }

  function Codes(ms: seq<Mapping>): set<string> {
    set i | 0 <= i < |ms| :: ms[i].code
  }

  /** The accumulated amount of every line code that some line touches. */
  function AmountsOf(lines: seq<Line>, ms: seq<Mapping>): Amounts {
    map code | code in Codes(ms) && Touched(lines, ms, code) :: MatchSum(lines, ms, code)
  }

  lemma TouchedHasCode(lines: seq<Line>, ms: seq<Mapping>, code: string)
    requires Touched(lines, ms, code)
    ensures code in Codes(ms)
  {
    var i :| 0 <= i < |lines| && LineTouches(lines[i], ms, code);
    var j :| 0 <= j < |ms| && Hits(lines[i], ms[j], code);
    assert ms[j].code == code;
  }

  lemma {:induction false} UntouchedLineIsZero(l: Line, ms: seq<Mapping>, code: string)
    requires !LineTouches(l, ms, code)
    ensures LineSum(l, ms, code) == 0
  {
    if ms != [] {
      var n := |ms| - 1;
      assert !Hits(l, ms[n], code);
      forall j | 0 <= j < n ensures !Hits(l, ms[..n][j], code) {
        assert ms[..n][j] == ms[j];
      }
      UntouchedLineIsZero(l, ms[..n], code);
    }
  }

  lemma {:induction false} UntouchedIsZero(lines: seq<Line>, ms: seq<Mapping>, code: string)
    requires !Touched(lines, ms, code)
    ensures MatchSum(lines, ms, code) == 0
  {
    if lines != [] {
      var n := |lines| - 1;
      assert !LineTouches(lines[n], ms, code);
      forall i | 0 <= i < n ensures !LineTouches(lines[..n][i], ms, code) {
        assert lines[..n][i] == lines[i];
      }
      UntouchedIsZero(lines[..n], ms, code);
      UntouchedLineIsZero(lines[n], ms, code);
    }
  }

  // ---- Accumulation ----

  /** What the map must hold after some lines, and the first n mappings of one line more. */
  ghost predicate Accumulated(amounts: Amounts, lines: seq<Line>, l: Line, ms: seq<Mapping>, n: nat)
    requires n <= |ms|
  {
    forall code ::
      && (code in amounts <==> Touched(lines, ms, code) || LineTouches(l, ms[..n], code))
      && (code in amounts ==> amounts[code] == MatchSum(lines, ms, code) + LineSum(l, ms[..n], code))
  }

  lemma LineTouchesSnoc(l: Line, ms: seq<Mapping>, n: nat)
    requires n < |ms|
    ensures forall code :: LineTouches(l, ms[..n + 1], code) <==> LineTouches(l, ms[..n], code) || Hits(l, ms[n], code)
    ensures forall code :: LineSum(l, ms[..n + 1], code)
                           == LineSum(l, ms[..n], code) + if Hits(l, ms[n], code) then l.amount else 0
  {
    assert ms[..n + 1][..n] == ms[..n];
    forall code
      ensures LineTouches(l, ms[..n + 1], code) <==> LineTouches(l, ms[..n], code) || Hits(l, ms[n], code)
    {
      if LineTouches(l, ms[..n], code) {
        var j :| 0 <= j < n && Hits(l, ms[..n][j], code);
        assert Hits(l, ms[..n + 1][j], code);
      }
      if Hits(l, ms[n], code) {
        assert Hits(l, ms[..n + 1][n], code);
      }
      if LineTouches(l, ms[..n + 1], code) {
        var j :| 0 <= j < n + 1 && Hits(l, ms[..n + 1][j], code);
        assert j < n ==> Hits(l, ms[..n][j], code);
      }
    }
  }

  method AddLine(amounts: Amounts, ghost lines: seq<Line>, l: Line, ms: seq<Mapping>) returns (amounts': Amounts)
    requires Accumulated(amounts, lines, l, ms, 0)
    ensures Accumulated(amounts', lines, l, ms, |ms|)
  {
    amounts' := amounts;
    for n := 0 to |ms|
      invariant Accumulated(amounts', lines, l, ms, n)
    {
      var m := ms[n];
      LineTouchesSnoc(l, ms, n);
      if !m.isSubtotal {
        var matched := MatchSelector(l, m.selector);
        if matched {
          NoneYet(amounts', lines, l, ms, n, m.code);
          var before := if m.code in amounts' then amounts'[m.code] else 0;
          amounts' := amounts'[m.code := before + l.amount];
        }
      }
    }
  }

  lemma NoneYet(amounts: Amounts, lines: seq<Line>, l: Line, ms: seq<Mapping>, n: nat, code: string)
    requires n <= |ms| && Accumulated(amounts, lines, l, ms, n)
    ensures code !in amounts ==> MatchSum(lines, ms, code) + LineSum(l, ms[..n], code) == 0
  {
    if code !in amounts {
      UntouchedIsZero(lines, ms, code);
      UntouchedLineIsZero(l, ms[..n], code);
    }
  }

  lemma {:induction false} NextLine(amounts: Amounts, lines: seq<Line>, n: nat, ms: seq<Mapping>)
    requires n < |lines| && Accumulated(amounts, lines[..n], lines[n], ms, |ms|)
    ensures forall code ::
              && (code in amounts <==> Touched(lines[..n + 1], ms, code))
              && (code in amounts ==> amounts[code] == MatchSum(lines[..n + 1], ms, code))
  {
    assert ms[..|ms|] == ms;
    assert lines[..n + 1][..n] == lines[..n];
    forall code
      ensures Touched(lines[..n + 1], ms, code) <==> Touched(lines[..n], ms, code) || LineTouches(lines[n], ms, code)
    {
      TouchedSnoc(lines, n, ms, code);
    }
  }

  lemma TouchedSnoc(lines: seq<Line>, n: nat, ms: seq<Mapping>, code: string)
    requires n < |lines|
    ensures Touched(lines[..n + 1], ms, code) <==> Touched(lines[..n], ms, code) || LineTouches(lines[n], ms, code)
  {
    if Touched(lines[..n], ms, code) {
      var i :| 0 <= i < n && LineTouches(lines[..n][i], ms, code);
      assert LineTouches(lines[..n + 1][i], ms, code);
    }
    if LineTouches(lines[n], ms, code) {
      assert LineTouches(lines[..n + 1][n], ms, code);
    }
    if Touched(lines[..n + 1], ms, code) {
      var i :| 0 <= i < n + 1 && LineTouches(lines[..n + 1][i], ms, code);
      assert i < n ==> LineTouches(lines[..n][i], ms, code);
    }
  }

  /** The nested loops over lines and mappings compute the sums over matching pairs. */
  method Accumulate(lines: seq<Line>, ms: seq<Mapping>) returns (amounts: Amounts)
    ensures amounts == AmountsOf(lines, ms)
  {
    amounts := map[];
    for n := 0 to |lines|
      invariant forall code ::
                  && (code in amounts <==> Touched(lines[..n], ms, code))
                  && (code in amounts ==> amounts[code] == MatchSum(lines[..n], ms, code))
    {
      assert ms[..0] == [];
      amounts := AddLine(amounts, lines[..n], lines[n], ms);
      NextLine(amounts, lines, n, ms);
    }
    assert lines[..|lines|] == lines;
    forall code | code in amounts ensures code in Codes(ms) {
      TouchedHasCode(lines, ms, code);
    }
  }

  // ---- Formulas ----

  /** A token is a line code if it has an amount, else a number if it reads as one, else nothing. */
  function Resolve(amounts: Amounts, literals: Amounts, token: string): int {
    if token in amounts then amounts[token] else if token in literals then literals[token] else 0
  }

  /** The first operand and the j operator-operand pairs after it, left to right. */
  function EvalUpTo(tokens: seq<string>, j: nat, amounts: Amounts, literals: Amounts): Result<int, ReportError>
    requires 2 * j < |tokens|
  {
    if j == 0 then Success(Resolve(amounts, literals, tokens[0]))
    else
      match EvalUpTo(tokens, j - 1, amounts, literals)
      case Failure(e) => Failure(e)
      case Success(val) =>
        var op, right := tokens[2 * j - 1], Resolve(amounts, literals, tokens[2 * j]);
        if op == "+" then Success(val + right)
        else if op == "-" then Success(val - right)
        else Failure(UnsupportedOperator(op))
  }

  /** A trailing operator without an operand is ignored. */
  function Eval(tokens: seq<string>, amounts: Amounts, literals: Amounts): Result<int, ReportError> {
    if tokens == [] then Success(0) else EvalUpTo(tokens, (|tokens| - 1) / 2, amounts, literals)
  }

  method EvalFormula(tokens: seq<string>, amounts: Amounts, literals: Amounts) returns (r: Result<int, ReportError>)
    ensures r == Eval(tokens, amounts, literals)
  {
    if tokens == [] {
      return Success(0);
    }
    var val := Resolve(amounts, literals, tokens[0]);
    var i := 1;
    ghost var j: nat := 0;
    while i < |tokens|
      invariant i == 2 * j + 1 && 2 * j < |tokens|
      invariant EvalUpTo(tokens, j, amounts, literals) == Success(val)
    {
      if i + 1 >= |tokens| {
        break;
      }
      var op := tokens[i];
      var right := Resolve(amounts, literals, tokens[i + 1]);
      j := j + 1;
      if op == "+" {
        val := val + right;
      } else if op == "-" {
        val := val - right;
      } else {
        FailureSpreads(tokens, j, (|tokens| - 1) / 2, amounts, literals);
        return Failure(UnsupportedOperator(op));
      }
      i := i + 2;
    }
    return Success(val);
  }

  lemma {:induction false} FailureSpreads(tokens: seq<string>, i: nat, j: nat, amounts: Amounts, literals: Amounts)
    requires i <= j && 2 * j < |tokens| && EvalUpTo(tokens, i, amounts, literals).Failure?
    ensures EvalUpTo(tokens, j, amounts, literals) == EvalUpTo(tokens, i, amounts, literals)
  {
    if i < j {
      FailureSpreads(tokens, i, j - 1, amounts, literals);
    }
  }

  lemma {:induction false} PrefixEvaluates(tokens: seq<string>, more: seq<string>, j: nat, amounts: Amounts,
                                           literals: Amounts)
    requires 2 * j < |tokens|
    ensures EvalUpTo(tokens + more, j, amounts, literals) == EvalUpTo(tokens, j, amounts, literals)
  {
    if j > 0 {
      PrefixEvaluates(tokens, more, j - 1, amounts, literals);
    }
  }

  /**
   A formula token by token: nothing is zero; one token is its amount, or its number, or zero; an operator and an
   operand more are added, subtracted, or an error, unless there was one before; an operator alone does nothing.
   */
  lemma EvalByParts(tokens: seq<string>, op: string, t: string, amounts: Amounts, literals: Amounts)
    requires |tokens| % 2 == 1
    ensures Eval([], amounts, literals) == Success(0)
    ensures t in amounts ==> Eval([t], amounts, literals) == Success(amounts[t])
    ensures t !in amounts && t in literals ==> Eval([t], amounts, literals) == Success(literals[t])
    ensures t !in amounts && t !in literals ==> Eval([t], amounts, literals) == Success(0)
    ensures Eval(tokens + [op], amounts, literals) == Eval(tokens, amounts, literals)
    ensures var before, operand := Eval(tokens, amounts, literals), Eval([t], amounts, literals);
            Eval(tokens + [op, t], amounts, literals)
            == if before.Failure? then before
               else if op == "+" then Success(before.value + operand.value)
               else if op == "-" then Success(before.value - operand.value)
               else Failure(UnsupportedOperator(op))
  {
    PrefixEvaluates(tokens, [op], (|tokens| - 1) / 2, amounts, literals);
    PrefixEvaluates(tokens, [op, t], (|tokens| - 1) / 2, amounts, literals);
  }

  predicate Operand(tokens: seq<string>, token: string) {
    exists j :: 0 <= j < |tokens| && j % 2 == 0 && tokens[j] == token
  }

  /** A formula's value depends on its operands only. */
  lemma {:induction false} EvalDependsOnOperands(tokens: seq<string>, j: nat, a: Amounts, b: Amounts, literals: Amounts)
    requires 2 * j < |tokens|
    requires forall t :: Operand(tokens, t) ==> Resolve(a, literals, t) == Resolve(b, literals, t)
    ensures EvalUpTo(tokens, j, a, literals) == EvalUpTo(tokens, j, b, literals)
  {
    assert Operand(tokens, tokens[2 * j]);
    if j > 0 {
      EvalDependsOnOperands(tokens, j - 1, a, b, literals);
    }
  }

  lemma EvalAgrees(tokens: seq<string>, a: Amounts, b: Amounts, literals: Amounts)
    requires forall t :: Operand(tokens, t) ==> Resolve(a, literals, t) == Resolve(b, literals, t)
    ensures Eval(tokens, a, literals) == Eval(tokens, b, literals)
  {
    if tokens != [] {
      EvalDependsOnOperands(tokens, (|tokens| - 1) / 2, a, b, literals);
    }
  }

  // ---- Subtotals ----

  predicate Computed(m: Mapping) { m.isSubtotal && m.formula.Some? }

  /** The values after the first n mappings of the single pass. */
  function PassUpTo(ms: seq<Mapping>, n: nat, amounts: Amounts, literals: Amounts): Result<Amounts, ReportError>
    requires n <= |ms|
  {
    if n == 0 then Success(amounts)
    else
      match PassUpTo(ms, n - 1, amounts, literals)
      case Failure(e) => Failure(e)
      case Success(ev) =>
        var m := ms[n - 1];
        if !Computed(m) then Success(ev)
        else
          match Eval(m.formula.value, ev, literals)
          case Failure(e) => Failure(e)
          case Success(val) => Success(ev[m.code := val])
  }

  function Evaluated(ms: seq<Mapping>, lines: seq<Line>, literals: Amounts): Result<Amounts, ReportError> {
    PassUpTo(ms, |ms|, AmountsOf(lines, ms), literals)
  }

  method SubtotalPass(ms: seq<Mapping>, amounts: Amounts, literals: Amounts) returns (r: Result<Amounts, ReportError>)
    ensures r == PassUpTo(ms, |ms|, amounts, literals)
  {
    var evaluated := amounts;
    for n := 0 to |ms|
      invariant PassUpTo(ms, n, amounts, literals) == Success(evaluated)
    {
      var m := ms[n];
      if m.isSubtotal && m.formula.Some? {
        var val := EvalFormula(m.formula.value, evaluated, literals);
        if val.Failure? {
          PassFailureSpreads(ms, n + 1, |ms|, amounts, literals);
          return Failure(val.error);
        }
        evaluated := evaluated[m.code := val.value];
      }
    }
    return Success(evaluated);
  }

  lemma {:induction false} PassFailureSpreads(ms: seq<Mapping>, i: nat, n: nat, amounts: Amounts, literals: Amounts)
    requires i <= n <= |ms| && PassUpTo(ms, i, amounts, literals).Failure?
    ensures PassUpTo(ms, n, amounts, literals) == PassUpTo(ms, i, amounts, literals)
  {
    if i < n {
      PassFailureSpreads(ms, i, n - 1, amounts, literals);
    }
  }

  /**
   In display order: computed lines have distinct codes, and no formula mentions itself or a computed line
   that comes after it.
   */
  predicate WellOrdered(ms: seq<Mapping>) {
    && (forall i, j :: 0 <= i < j < |ms| && Computed(ms[i]) && Computed(ms[j]) ==> ms[i].code != ms[j].code)
    && (forall i, j :: 0 <= i <= j < |ms| && Computed(ms[i]) && Computed(ms[j])
                       ==> !Operand(ms[i].formula.value, ms[j].code))
  }

  /** Later steps of the pass change computed lines of later mappings only. */
  lemma {:induction false} PassKeeps(ms: seq<Mapping>, i: nat, n: nat, amounts: Amounts, literals: Amounts,
                                     token: string)
    requires i <= n <= |ms| && PassUpTo(ms, n, amounts, literals).Success?
    requires forall j :: i <= j < n && Computed(ms[j]) ==> ms[j].code != token
    ensures PassUpTo(ms, i, amounts, literals).Success?
    ensures Resolve(PassUpTo(ms, n, amounts, literals).value, literals, token)
            == Resolve(PassUpTo(ms, i, amounts, literals).value, literals, token)
  {
    if i < n {
      PassKeeps(ms, i, n - 1, amounts, literals, token);
    }
  }

  /** The single pass solves all subtotal equations at once. */
  lemma PassSolvesEquations(ms: seq<Mapping>, amounts: Amounts, literals: Amounts, i: nat)
    requires WellOrdered(ms) && i < |ms| && Computed(ms[i])
    requires PassUpTo(ms, |ms|, amounts, literals).Success?
    ensures var final := PassUpTo(ms, |ms|, amounts, literals).value;
            && ms[i].code in final
            && Eval(ms[i].formula.value, final, literals) == Success(final[ms[i].code])
  {
    var final := PassUpTo(ms, |ms|, amounts, literals).value;
    var code, tokens := ms[i].code, ms[i].formula.value;
    PassKeeps(ms, i + 1, |ms|, amounts, literals, code);
    PassKeepsKey(ms, i + 1, |ms|, amounts, literals, code);
    var before := PassUpTo(ms, i, amounts, literals).value;
    forall t | Operand(tokens, t)
      ensures Resolve(final, literals, t) == Resolve(before, literals, t)
    {
      PassKeeps(ms, i, |ms|, amounts, literals, t);
    }
    EvalAgrees(tokens, final, before, literals);
  }

  lemma {:induction false} PassKeepsKey(ms: seq<Mapping>, i: nat, n: nat, amounts: Amounts, literals: Amounts,
                                     key: string)
    requires i <= n <= |ms| && PassUpTo(ms, n, amounts, literals).Success?
    requires PassUpTo(ms, i, amounts, literals).Success? && key in PassUpTo(ms, i, amounts, literals).value
    ensures key in PassUpTo(ms, n, amounts, literals).value
  {
    if i < n {
      PassFailureStays(ms, n, amounts, literals);
      PassKeepsKey(ms, i, n - 1, amounts, literals, key);
    }
  }

  lemma PassFailureStays(ms: seq<Mapping>, n: nat, amounts: Amounts, literals: Amounts)
    requires 0 < n <= |ms| && PassUpTo(ms, n, amounts, literals).Success?
    ensures PassUpTo(ms, n - 1, amounts, literals).Success?
  {
  }

  predicate ComputedCode(ms: seq<Mapping>, token: string) {
    exists i :: 0 <= i < |ms| && Computed(ms[i]) && ms[i].code == token
  }

  /** An assignment that has the accumulated amounts and satisfies every subtotal equation. */
  ghost predicate Solution(ms: seq<Mapping>, amounts: Amounts, literals: Amounts, g: Amounts) {
    && (forall t :: !ComputedCode(ms, t) ==> Resolve(g, literals, t) == Resolve(amounts, literals, t))
    && (forall i :: 0 <= i < |ms| && Computed(ms[i]) ==>
          ms[i].code in g && Eval(ms[i].formula.value, g, literals) == Success(g[ms[i].code]))
  }

  /** There is no other solution. */
  lemma {:induction false} PassIsTheOnlySolution(ms: seq<Mapping>, n: nat, amounts: Amounts, literals: Amounts,
                                                 g: Amounts)
    requires WellOrdered(ms) && n <= |ms| && Solution(ms, amounts, literals, g)
    ensures PassUpTo(ms, n, amounts, literals).Success?
    ensures forall i :: 0 <= i < n && Computed(ms[i]) ==>
              ms[i].code in PassUpTo(ms, n, amounts, literals).value
              && PassUpTo(ms, n, amounts, literals).value[ms[i].code] == g[ms[i].code]
  {
    if n > 0 {
      PassIsTheOnlySolution(ms, n - 1, amounts, literals, g);
      var m := ms[n - 1];
      if Computed(m) {
        var before := PassUpTo(ms, n - 1, amounts, literals).value;
        forall t | Operand(m.formula.value, t)
          ensures Resolve(before, literals, t) == Resolve(g, literals, t)
        {
          OperandSettled(ms, n - 1, amounts, literals, g, t);
        }
        EvalAgrees(m.formula.value, before, g, literals);
      }
    }
  }

  lemma OperandSettled(ms: seq<Mapping>, n: nat, amounts: Amounts, literals: Amounts, g: Amounts, t: string)
    requires WellOrdered(ms) && n < |ms| && Computed(ms[n]) && Operand(ms[n].formula.value, t)
    requires Solution(ms, amounts, literals, g) && PassUpTo(ms, n, amounts, literals).Success?
    requires forall i :: 0 <= i < n && Computed(ms[i]) ==>
               ms[i].code in PassUpTo(ms, n, amounts, literals).value
               && PassUpTo(ms, n, amounts, literals).value[ms[i].code] == g[ms[i].code]
    ensures Resolve(PassUpTo(ms, n, amounts, literals).value, literals, t) == Resolve(g, literals, t)
  {
    if ComputedCode(ms, t) {
      var i :| 0 <= i < |ms| && Computed(ms[i]) && ms[i].code == t;
      assert i < n;
    } else {
      PassKeeps(ms, 0, n, amounts, literals, t);
    }
  }

  // ---- Order of the lines ----

  lemma {:induction false} MatchSumIsSum(lines: seq<Line>, ms: seq<Mapping>, code: string, f: Line -> int)
    requires forall l :: f(l) == LineSum(l, ms, code)
    ensures MatchSum(lines, ms, code) == Sum(lines, f)
  {
    if lines != [] {
      MatchSumIsSum(lines[..|lines| - 1], ms, code, f);
    }
  }

  lemma MatchSumPermutes(lines: seq<Line>, lines': seq<Line>, ms: seq<Mapping>, code: string)
    requires multiset(lines) == multiset(lines')
    ensures MatchSum(lines, ms, code) == MatchSum(lines', ms, code)
  {
    var f := (l: Line) => LineSum(l, ms, code);
    MatchSumIsSum(lines, ms, code, f);
    MatchSumIsSum(lines', ms, code, f);
    SumPermutation(lines, lines', f);
  }

  lemma TouchedPermutes(lines: seq<Line>, lines': seq<Line>, ms: seq<Mapping>, code: string)
    requires multiset(lines) == multiset(lines') && Touched(lines, ms, code)
    ensures Touched(lines', ms, code)
  {
    var i :| 0 <= i < |lines| && LineTouches(lines[i], ms, code);
    assert lines[i] in multiset(lines');
    var j :| 0 <= j < |lines'| && lines'[j] == lines[i];
    assert LineTouches(lines'[j], ms, code);
  }

  /** The whole statement does not depend on the order of the journal lines. */
  lemma StatementIgnoresLineOrder(ms: seq<Mapping>, lines: seq<Line>, lines': seq<Line>, literals: Amounts)
    requires multiset(lines) == multiset(lines')
    ensures Evaluated(ms, lines, literals) == Evaluated(ms, lines', literals)
  {
    forall code
      ensures Touched(lines, ms, code) <==> Touched(lines', ms, code)
      ensures MatchSum(lines, ms, code) == MatchSum(lines', ms, code)
    {
      if Touched(lines, ms, code) {
        TouchedPermutes(lines, lines', ms, code);
      }
      if Touched(lines', ms, code) {
        TouchedPermutes(lines', lines, ms, code);
      }
      MatchSumPermutes(lines, lines', ms, code);
    }
    assert AmountsOf(lines, ms) == AmountsOf(lines', ms);
  }

  // ---- Adding statements ----

  function Get(amounts: Amounts, code: string): int { if code in amounts then amounts[code] else 0 }

  /** c is the pointwise sum of a and b. */
  ghost predicate Adds(a: Amounts, b: Amounts, c: Amounts) {
    forall t :: Get(c, t) == Get(a, t) + Get(b, t)
  }

  /** A formula without numbers is linear in the amounts. */
  lemma {:induction false} EvalIsLinear(tokens: seq<string>, j: nat, a: Amounts, b: Amounts, c: Amounts)
    requires 2 * j < |tokens|
    requires Adds(a, b, c)
    ensures var x, y, z := EvalUpTo(tokens, j, a, map[]), EvalUpTo(tokens, j, b, map[]), EvalUpTo(tokens, j, c, map[]);
            && (x.Success? <==> z.Success?) && (y.Success? <==> z.Success?)
            && (z.Success? ==> z.value == x.value + y.value)
            && (z.Failure? ==> x == z && y == z)
  {
    assert forall amounts: Amounts, t :: Resolve(amounts, map[], t) == Get(amounts, t);
    if j > 0 {
      EvalIsLinear(tokens, j - 1, a, b, c);
    }
  }

  /** Two passes side by side stay pointwise additive. */
  lemma {:induction false} PassIsLinear(ms: seq<Mapping>, n: nat, a: Amounts, b: Amounts, c: Amounts)
    requires n <= |ms|
    requires Adds(a, b, c)
    ensures var x, y, z := PassUpTo(ms, n, a, map[]), PassUpTo(ms, n, b, map[]), PassUpTo(ms, n, c, map[]);
            && (x.Success? <==> z.Success?) && (y.Success? <==> z.Success?)
            && (z.Success? ==> Adds(x.value, y.value, z.value))
            && (z.Failure? ==> x == z && y == z)
  {
    if n > 0 {
      PassIsLinear(ms, n - 1, a, b, c);
      if PassUpTo(ms, n - 1, c, map[]).Success? && Computed(ms[n - 1]) {
        var x, y, z := PassUpTo(ms, n - 1, a, map[]).value, PassUpTo(ms, n - 1, b, map[]).value,
                       PassUpTo(ms, n - 1, c, map[]).value;
        var tokens := ms[n - 1].formula.value;
        if tokens != [] {
          EvalIsLinear(tokens, (|tokens| - 1) / 2, x, y, z);
        }
        if Eval(tokens, z, map[]).Success? {
          UpdateAdds(x, y, z, ms[n - 1].code, Eval(tokens, x, map[]).value, Eval(tokens, y, map[]).value);
        }
      }
    }
  }

  lemma UpdateAdds(x: Amounts, y: Amounts, z: Amounts, code: string, v: int, w: int)
    requires Adds(x, y, z)
    ensures Adds(x[code := v], y[code := w], z[code := v + w])
  {
    var x', y', z' := x[code := v], y[code := w], z[code := v + w];
    forall t
      ensures Get(z', t) == Get(x', t) + Get(y', t)
    {
      assert Get(z, t) == Get(x, t) + Get(y, t);
    }
  }

  lemma {:induction false} MatchSumConcat(lines: seq<Line>, more: seq<Line>, ms: seq<Mapping>, code: string)
    ensures MatchSum(lines + more, ms, code) == MatchSum(lines, ms, code) + MatchSum(more, ms, code)
  {
    if more == [] {
      assert lines + more == lines;
    } else {
      assert (lines + more)[..|lines + more| - 1] == lines + more[..|more| - 1];
      MatchSumConcat(lines, more[..|more| - 1], ms, code);
    }
  }

  lemma GetAmount(lines: seq<Line>, ms: seq<Mapping>, code: string)
    ensures Get(AmountsOf(lines, ms), code) == MatchSum(lines, ms, code)
  {
    if Touched(lines, ms, code) {
      TouchedHasCode(lines, ms, code);
    } else {
      UntouchedIsZero(lines, ms, code);
    }
  }

  /**
   Where formulas hold no numbers, the statement of two line lists together is the sum of their statements,
   line by line.
   */
  lemma StatementsAdd(ms: seq<Mapping>, lines: seq<Line>, more: seq<Line>)
    ensures var x, y, z := Evaluated(ms, lines, map[]), Evaluated(ms, more, map[]), Evaluated(ms, lines + more, map[]);
            && (x.Success? <==> z.Success?) && (y.Success? <==> z.Success?)
            && (z.Success? ==> Adds(x.value, y.value, z.value))
  {
    forall code
      ensures Get(AmountsOf(lines + more, ms), code) == Get(AmountsOf(lines, ms), code) + Get(AmountsOf(more, ms), code)
    {
      GetAmount(lines, ms, code);
      GetAmount(more, ms, code);
      GetAmount(lines + more, ms, code);
      MatchSumConcat(lines, more, ms, code);
    }
    PassIsLinear(ms, |ms|, AmountsOf(lines, ms), AmountsOf(more, ms), AmountsOf(lines + more, ms));
  }
}
