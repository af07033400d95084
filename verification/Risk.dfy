/** Risk detection over runs: consecutive zero filings and consecutive loss years. */
module Risk {
  import opened Grouping

  /** The flags in [lo, hi) all hold and the run cannot be made longer on either side. */
  ghost predicate MaximalRun(flags: seq<bool>, lo: int, hi: int) {
    && 0 <= lo < hi <= |flags|
    && (forall i :: lo <= i < hi ==> flags[i])
    && (lo == 0 || !flags[lo - 1])
    && (hi == |flags| || !flags[hi])
  }

  /** The length of the run that ends just before position n. */
  function RunLength(flags: seq<bool>, n: nat): (r: nat)
    requires n <= |flags|
    ensures r <= n
    ensures forall i :: n - r <= i < n ==> flags[i]
    ensures r == n || !flags[n - r - 1]
  {
    if n == 0 || !flags[n - 1] then 0 else RunLength(flags, n - 1) + 1
  }

  lemma {:induction false} RunIsLongest(flags: seq<bool>, n: nat, lo: nat)
    requires lo < n <= |flags|
    requires forall i :: lo <= i < n ==> flags[i]
    requires lo == 0 || !flags[lo - 1]
    ensures lo == n - RunLength(flags, n)
  {
    if lo < n - 1 {
      RunIsLongest(flags, n - 1, lo);
    }
  }

  /** The reportable runs that have ended before position n. */
  function EndedSpans(flags: seq<bool>, n: nat): seq<(int, int)>
    requires n <= |flags|
  {
    if n == 0 then []
    else if !flags[n - 1] && RunLength(flags, n - 1) >= 2 then
      EndedSpans(flags, n - 1) + [(n - 1 - RunLength(flags, n - 1), n - 1)]
    else EndedSpans(flags, n - 1)
  }

  lemma EndedAt(flags: seq<bool>, n: nat)
    requires n < |flags| && !flags[n]
    ensures var r := RunLength(flags, n);
            EndedSpans(flags, n + 1) == EndedSpans(flags, n) + if r >= 2 then [(n - r, n)] else []
    ensures RunLength(flags, n + 1) == 0
  {
  }

  lemma ContinuedAt(flags: seq<bool>, n: nat)
    requires n < |flags| && flags[n]
    ensures EndedSpans(flags, n + 1) == EndedSpans(flags, n)
    ensures RunLength(flags, n + 1) == RunLength(flags, n) + 1
  {
  }

  lemma LastRun(flags: seq<bool>)
    ensures var last := RunLength(flags, |flags|);
            Spans(flags) == EndedSpans(flags, |flags|) + if last >= 2 then [(|flags| - last, |flags|)] else []
  {
  }

  function Spans(flags: seq<bool>): seq<(int, int)> {
    var last := RunLength(flags, |flags|);
    EndedSpans(flags, |flags|) + if last >= 2 then [(|flags| - last, |flags|)] else []
  }

  lemma {:induction false} EndedSpansExact(flags: seq<bool>, n: nat, lo: int, hi: int)
    requires n <= |flags|
    ensures (lo, hi) in EndedSpans(flags, n) <==> MaximalRun(flags, lo, hi) && hi - lo >= 2 && hi < n
  {
    if n > 0 {
      EndedSpansExact(flags, n - 1, lo, hi);
      var r := RunLength(flags, n - 1);
      if hi == n - 1 && MaximalRun(flags, lo, hi) && hi - lo >= 2 {
        RunIsLongest(flags, n - 1, lo);
      }
    }
  }

  lemma {:induction false} EndedSpansOrdered(flags: seq<bool>, n: nat)
    requires n <= |flags|
    ensures forall i, j :: 0 <= i < j < |EndedSpans(flags, n)| ==>
              EndedSpans(flags, n)[i].1 < EndedSpans(flags, n)[j].0
    ensures forall i :: 0 <= i < |EndedSpans(flags, n)| ==>
              EndedSpans(flags, n)[i].1 < n - RunLength(flags, n)
  {
    if n > 0 {
      EndedSpansOrdered(flags, n - 1);
    }
  }

  /**
   The reported spans are exactly the maximal runs of at least two, in order, each once, and no two of them
   touch.
   */
  lemma {:induction false} SpansExact(flags: seq<bool>)
    ensures forall lo, hi :: (lo, hi) in Spans(flags) <==> MaximalRun(flags, lo, hi) && hi - lo >= 2
    ensures forall i, j :: 0 <= i < j < |Spans(flags)| ==> Spans(flags)[i].1 < Spans(flags)[j].0
  {
    var n := |flags|;
    EndedSpansOrdered(flags, n);
    forall lo, hi
      ensures (lo, hi) in Spans(flags) <==> MaximalRun(flags, lo, hi) && hi - lo >= 2
    {
      EndedSpansExact(flags, n, lo, hi);
      var r := RunLength(flags, n);
      if hi == n && MaximalRun(flags, lo, hi) && hi - lo >= 2 {
        RunIsLongest(flags, n, lo);
      }
    }
  }

  datatype Finding<T> = Finding(count: nat, members: seq<T>, danger: bool)

  predicate SpanOf(xs: int, span: (int, int)) { 0 <= span.0 <= span.1 <= xs }

  /** One finding for a span of the sorted list: danger from three on. */
  function FindingOf<T>(xs: seq<T>, span: (int, int)): Finding<T>
    requires SpanOf(|xs|, span)
  {
    Finding(span.1 - span.0, xs[span.0..span.1], span.1 - span.0 >= 3)
  }

  ghost predicate Reports<T>(findings: seq<Finding<T>>, xs: seq<T>, spans: seq<(int, int)>) {
    && |findings| == |spans|
    && forall i :: 0 <= i < |spans| ==> SpanOf(|xs|, spans[i]) && findings[i] == FindingOf(xs, spans[i])
  }

  /** The scan has read n elements: the ended runs are reported, and run holds the one under way. */
  ghost predicate Scanned<T>(xs: seq<T>, flags: seq<bool>, n: nat, run: seq<T>, risks: seq<Finding<T>>) {
    && n <= |xs| == |flags|
    && |run| == RunLength(flags, n) && run == xs[n - |run|..n]
    && Reports(risks, xs, EndedSpans(flags, n))
  }

  lemma ScanContinues<T>(xs: seq<T>, flags: seq<bool>, n: nat, run: seq<T>, risks: seq<Finding<T>>)
    requires Scanned(xs, flags, n, run, risks) && n < |xs| && flags[n]
    ensures Scanned(xs, flags, n + 1, run + [xs[n]], risks)
  {
    ContinuedAt(flags, n);
    assert xs[n - |run|..n + 1] == xs[n - |run|..n] + [xs[n]];
  }

  lemma ScanEndsRun<T>(xs: seq<T>, flags: seq<bool>, n: nat, run: seq<T>, risks: seq<Finding<T>>,
                       risks': seq<Finding<T>>)
    requires Scanned(xs, flags, n, run, risks) && n < |xs| && !flags[n]
    requires Reports(risks', xs, EndedSpans(flags, n) + if |run| >= 2 then [(n - |run|, n)] else [])
    ensures Scanned(xs, flags, n + 1, [], risks')
  {
    EndedAt(flags, n);
  }

  /** The run that has just ended is reported if it is long enough. */
  method EndRun<T>(risks: seq<Finding<T>>, run: seq<T>, ghost xs: seq<T>, ghost spans: seq<(int, int)>, ghost n: nat)
    returns (risks': seq<Finding<T>>)
    requires Reports(risks, xs, spans)
    requires |run| <= n <= |xs| && run == xs[n - |run|..n]
    ensures Reports(risks', xs, spans + if |run| >= 2 then [(n - |run|, n)] else [])
  {
    risks' := risks;
    if |run| >= 2 {
      var danger := false;
      if |run| >= 3 {
        danger := true;
      }
      risks' := risks + [Finding(|run|, run, danger)];
    }
  }

  /** Exactly the maximal runs of at least two have a finding: count, members, and danger from three on. */
  ghost predicate ReportsRuns<T>(findings: seq<Finding<T>>, xs: seq<T>, flags: seq<bool>) {
    && |flags| == |xs|
    && (forall lo, hi :: MaximalRun(flags, lo, hi) && hi - lo >= 2 ==> FoundAt(findings, xs, lo, hi))
    && (forall i :: 0 <= i < |findings| ==> FindsRun(findings[i], xs, flags))
  }

  ghost predicate FindsRun<T>(f: Finding<T>, xs: seq<T>, flags: seq<bool>) {
    exists lo, hi :: MaximalRun(flags, lo, hi) && hi - lo >= 2 && Finds(f, xs, lo, hi)
  }

  ghost predicate Finds<T>(f: Finding<T>, xs: seq<T>, lo: int, hi: int) {
    && 0 <= lo <= hi <= |xs|
    && f.count == hi - lo && f.members == xs[lo..hi] && (f.danger <==> hi - lo >= 3)
  }

  ghost predicate FoundAt<T>(findings: seq<Finding<T>>, xs: seq<T>, lo: int, hi: int) {
    exists i :: 0 <= i < |findings| && Finds(findings[i], xs, lo, hi)
  }

  lemma ReportsAreRuns<T>(findings: seq<Finding<T>>, xs: seq<T>, flags: seq<bool>)
    requires Reports(findings, xs, Spans(flags)) && |flags| == |xs|
    ensures ReportsRuns(findings, xs, flags)
  {
    var spans := Spans(flags);
    SpansExact(flags);
    forall lo, hi | MaximalRun(flags, lo, hi) && hi - lo >= 2 ensures FoundAt(findings, xs, lo, hi) {
      var i :| 0 <= i < |spans| && spans[i] == (lo, hi);
      assert Finds(findings[i], xs, lo, hi);
    }
    forall i | 0 <= i < |findings| ensures FindsRun(findings[i], xs, flags) {
      var (lo, hi) := spans[i];
      assert (lo, hi) in spans;
      assert Finds(findings[i], xs, lo, hi);
    }
  }

  // ---- Zero filings ----

  /** The period was filed and its tax payable was zero. */
  predicate ZeroFiled(taxPayable: map<string, int>, p: string) {
    p in taxPayable && taxPayable[p] == 0
  }

  function ZeroFlags(sorted: seq<string>, taxPayable: map<string, int>): seq<bool> {
    seq(|sorted|, i requires 0 <= i < |sorted| => ZeroFiled(taxPayable, sorted[i]))
  }

  /** The findings are the runs of periods filed with no tax payable. */
  ghost predicate ReportsZeroRuns(risks: seq<Finding<string>>, ps: seq<string>, taxPayable: map<string, int>) {
    exists flags: seq<bool> ::
      ReportsRuns(risks, ps, flags)
      && forall i :: 0 <= i < |ps| ==> (flags[i] <==> ps[i] in taxPayable && taxPayable[ps[i]] == 0)
  }

  method ScanZeroFiling(ps: seq<string>, taxPayable: map<string, int>) returns (risks: seq<Finding<string>>)
    ensures Reports(risks, ps, Spans(ZeroFlags(ps, taxPayable)))
  {
    ghost var flags := ZeroFlags(ps, taxPayable);
    var run: seq<string> := [];
    risks := [];
    for n := 0 to |ps|
      invariant Scanned(ps, flags, n, run, risks)
    {
      var p := ps[n];
      if p in taxPayable && taxPayable[p] == 0 {
        ScanContinues(ps, flags, n, run, risks);
        run := run + [p];
      } else {
        ghost var before := risks;
        risks := EndRun(risks, run, ps, EndedSpans(flags, n), n);
        ScanEndsRun(ps, flags, n, run, before, risks);
        run := [];
      }
    }
    risks := EndRun(risks, run, ps, EndedSpans(flags, |ps|), |ps|);
    LastRun(flags);
  }

  /** The findings are those of the sorted periods; the caller's list is left as it is. */
  method DetectZeroFiling(periods: seq<string>, taxPayable: map<string, int>) returns (risks: seq<Finding<string>>)
    ensures exists ps: seq<string> :: SortedBy(ps, StringLe) && multiset(ps) == multiset(periods)
                                      && ReportsZeroRuns(risks, ps, taxPayable)
  {
    StringOrder();
    var ps := Sort(periods, StringLe);
    risks := ScanZeroFiling(ps, taxPayable);
    ReportsAreRuns(risks, ps, ZeroFlags(ps, taxPayable));
  }

  // ---- Loss years ----

  predicate LossYear(profit: map<int, int>, y: int) {
    y in profit && profit[y] < 0
  }

  function LossFlags(sorted: seq<int>, profit: map<int, int>): seq<bool> {
    seq(|sorted|, i requires 0 <= i < |sorted| => LossYear(profit, sorted[i]))
  }

  predicate IntLe(a: int, b: int) { a <= b }

  /** The findings are the runs of years with a negative profit. */
  ghost predicate ReportsLossRuns(risks: seq<Finding<int>>, ys: seq<int>, profit: map<int, int>) {
    exists flags: seq<bool> ::
      ReportsRuns(risks, ys, flags)
      && forall i :: 0 <= i < |ys| ==> (flags[i] <==> ys[i] in profit && profit[ys[i]] < 0)
  }

  method ScanLosses(years: array<int>, profit: map<int, int>) returns (risks: seq<Finding<int>>)
    ensures Reports(risks, years[..], Spans(LossFlags(years[..], profit)))
  {
    ghost var ys := years[..];
    ghost var flags := LossFlags(ys, profit);
    var run: seq<int> := [];
    risks := [];
    for n := 0 to years.Length
      invariant Scanned(ys, flags, n, run, risks)
    {
      var y := years[n];
      if y in profit && profit[y] < 0 {
        ScanContinues(ys, flags, n, run, risks);
        run := run + [y];
      } else {
        ghost var before := risks;
        risks := EndRun(risks, run, ys, EndedSpans(flags, n), n);
        ScanEndsRun(ys, flags, n, run, before, risks);
        run := [];
      }
    }
    risks := EndRun(risks, run, ys, EndedSpans(flags, |ys|), |ys|);
    LastRun(flags);
  }

  /** The years are sorted in place, so the caller's list is reordered too. */
  method DetectConsecutiveLosses(years: array<int>, profit: map<int, int>) returns (risks: seq<Finding<int>>)
    modifies years
    ensures forall i, j :: 0 <= i < j < years.Length ==> years[i] <= years[j]
    ensures multiset(years[..]) == multiset(old(years[..]))
    ensures ReportsLossRuns(risks, years[..], profit)
  {
    SortInPlace(years, IntLe);
    risks := ScanLosses(years, profit);
    ReportsAreRuns(risks, years[..], LossFlags(years[..], profit));
    assert forall i, j :: 0 <= i < j < years.Length ==> IntLe(years[..][i], years[..][j]);
  }
}
