/** The VAT summary, the cross check by rate, and the VAT return of a list of posted invoices. */
module VatReport {
  import opened Prelude
  import opened Ledger
  import opened Grouping
  import opened Money
  import opened Tax
  import Balance
  import Phases
  import Transitions

  // ---- What an invoice contributes ----

  predicate IsOutput(inv: Invoice) { inv.direction == OUTPUT }

  function One(inv: Invoice): int { 1 }

  function NetOf(inv: Invoice): int { inv.net }

  function TaxOf(inv: Invoice): int { inv.tax }

  function GrossOf(inv: Invoice): int { inv.gross }

  function OutputCount(inv: Invoice): int { if IsOutput(inv) then 1 else 0 }

  function InputCount(inv: Invoice): int { if IsOutput(inv) then 0 else 1 }

  function OutputNet(inv: Invoice): int { if IsOutput(inv) then inv.net else 0 }

  function InputNet(inv: Invoice): int { if IsOutput(inv) then 0 else inv.net }

  function OutputTax(inv: Invoice): int { if IsOutput(inv) then inv.tax else 0 }

  function InputTax(inv: Invoice): int { if IsOutput(inv) then 0 else inv.tax }

  function OutputGross(inv: Invoice): int { if IsOutput(inv) then inv.gross else 0 }

  function InputGross(inv: Invoice): int { if IsOutput(inv) then 0 else inv.gross }

  // ---- Summary ----

  datatype Summary = Summary(outputCount: int, outputNet: int, outputTax: int, outputGross: int,
                             inputCount: int, inputNet: int, inputTax: int, inputGross: int)

  function SummaryOf(invs: seq<Invoice>): Summary {
    Summary(Sum(invs, OutputCount), Sum(invs, OutputNet), Sum(invs, OutputTax), Sum(invs, OutputGross),
            Sum(invs, InputCount), Sum(invs, InputNet), Sum(invs, InputTax), Sum(invs, InputGross))
  }

  method VATSummary(invs: seq<Invoice>) returns (s: Summary)
    ensures s == SummaryOf(invs)
  {
    s := Summary(0, 0, 0, 0, 0, 0, 0, 0);
    for n := 0 to |invs|
      invariant s == SummaryOf(invs[..n])
    {
      var inv := invs[n];
      assert invs[..n + 1][..n] == invs[..n];
      if inv.direction == OUTPUT {
        s := s.(outputCount := s.outputCount + 1, outputNet := s.outputNet + inv.net,
                outputTax := s.outputTax + inv.tax, outputGross := s.outputGross + inv.gross);
      } else {
        s := s.(inputCount := s.inputCount + 1, inputNet := s.inputNet + inv.net,
                inputTax := s.inputTax + inv.tax, inputGross := s.inputGross + inv.gross);
      }
    }
    assert invs[..|invs|] == invs;
  }

  /** Every invoice counts once, on the side of its direction. */
  lemma {:induction false} CountsAddUp(invs: seq<Invoice>)
    ensures var s := SummaryOf(invs);
            && s.outputCount + s.inputCount == |invs| && s.outputCount >= 0 && s.inputCount >= 0
            && ((forall inv | inv in invs :: inv.direction == "output") ==> s.outputCount == |invs|)
            && ((forall inv | inv in invs :: inv.direction != "output") ==> s.inputCount == |invs|)
  {
    if invs != [] {
      assert invs[|invs| - 1] in invs;
      CountsAddUp(invs[..|invs| - 1]);
    }
  }

  // ---- Cross check ----

  /** Tax over net, rounded to a whole percent. */
  function RateOf(inv: Invoice): int {
    if inv.net > 0 then Round(100 * inv.tax, inv.net) else 0
  }

  /** The whole percent nearest to tax over net, halves away from zero; without a positive net, zero. */
  predicate IsRate(inv: Invoice, rate: int) {
    if inv.net > 0 then Nearest(rate, 100 * inv.tax, inv.net) else rate == 0
  }

  /** Each invoice has exactly one rate. */
  lemma RateIsNearest(inv: Invoice, rate: int)
    ensures IsRate(inv, rate) <==> rate == RateOf(inv)
  {
    if inv.net > 0 {
      RoundIsNearest(rate, 100 * inv.tax, inv.net);
    }
  }

  /** What the invoices of one direction and one rate contribute. */
  ghost function AtRate(invs: seq<Invoice>, d: string, rate: int, f: Invoice -> int): int {
    if invs == [] then 0
    else
      var inv := invs[|invs| - 1];
      AtRate(invs[..|invs| - 1], d, rate, f) + if inv.direction == d && IsRate(inv, rate) then f(inv) else 0
  }

  lemma {:induction false} AtRateIsGroup(invs: seq<Invoice>, d: string, rate: int, f: Invoice -> int)
    ensures AtRate(invs, d, rate, f) == SumOf(invs, RateKeyOf, (rate, d), f)
  {
    if invs != [] {
      AtRateIsGroup(invs[..|invs| - 1], d, rate, f);
      RateIsNearest(invs[|invs| - 1], rate);
    }
  }

  /** Some invoice has this direction and this rate. */
  ghost predicate Occurs(invs: seq<Invoice>, d: string, rate: int) {
    exists inv | inv in invs :: inv.direction == d && IsRate(inv, rate)
  }

  lemma {:induction false} CountedOccurs(invs: seq<Invoice>, d: string, rate: int)
    requires AtRate(invs, d, rate, One) > 0
    ensures Occurs(invs, d, rate)
  {
    var inv := invs[|invs| - 1];
    if !(inv.direction == d && IsRate(inv, rate)) {
      CountedOccurs(invs[..|invs| - 1], d, rate);
    }
  }

  type RateKey = (int, string)

  function RateKeyOf(inv: Invoice): RateKey { (RateOf(inv), inv.direction) }

  datatype RateRow = RateRow(rate: int, count: int, net: int, tax: int, gross: int)

  function RowTax(r: RateRow): int { r.tax }

  function RowNet(r: RateRow): int { r.net }

  predicate RateRowOf(invs: seq<Invoice>, k: RateKey, r: RateRow) {
    && r.rate == k.0
    && r.count == SumOf(invs, RateKeyOf, k, One)
    && r.net == SumOf(invs, RateKeyOf, k, NetOf)
    && r.tax == SumOf(invs, RateKeyOf, k, TaxOf)
    && r.gross == SumOf(invs, RateKeyOf, k, GrossOf)
  }

  /** Every invoice has a group, and every group holds the sums of its invoices. */
  ghost predicate GroupedByRate(invs: seq<Invoice>, groups: map<RateKey, RateRow>) {
    && (forall inv | inv in invs :: RateKeyOf(inv) in groups)
    && (forall k :: k in groups ==> RateRowOf(invs, k, groups[k]) && groups[k].count > 0)
  }

  lemma {:induction false} RateGroupIsEmpty(invs: seq<Invoice>, k: RateKey)
    requires forall inv | inv in invs :: RateKeyOf(inv) != k
    ensures RateRowOf(invs, k, RateRow(k.0, 0, 0, 0, 0))
  {
    if invs != [] {
      assert invs[|invs| - 1] in invs;
      RateGroupIsEmpty(invs[..|invs| - 1], k);
    }
  }

  function AddToRate(row: RateRow, inv: Invoice): RateRow {
    RateRow(row.rate, row.count + 1, row.net + inv.net, row.tax + inv.tax, row.gross + inv.gross)
  }

  lemma RateRowSnoc(invs: seq<Invoice>, inv: Invoice, k: RateKey, row: RateRow)
    requires RateRowOf(invs, k, row)
    ensures RateRowOf(invs + [inv], k, if RateKeyOf(inv) == k then AddToRate(row, inv) else row)
  {
    assert (invs + [inv])[..|invs|] == invs;
  }

  lemma GroupedByRateSnoc(invs: seq<Invoice>, inv: Invoice, groups: map<RateKey, RateRow>, row: RateRow)
    requires GroupedByRate(invs, groups)
    requires var k := RateKeyOf(inv); row == if k in groups then groups[k] else RateRow(k.0, 0, 0, 0, 0)
    ensures GroupedByRate(invs + [inv], groups[RateKeyOf(inv) := AddToRate(row, inv)])
  {
    var groups' := groups[RateKeyOf(inv) := AddToRate(row, inv)];
    forall k | k in groups' ensures RateRowOf(invs + [inv], k, groups'[k]) && groups'[k].count > 0 {
      if k in groups {
        RateRowSnoc(invs, inv, k, groups[k]);
      } else {
        RateGroupIsEmpty(invs, k);
        RateRowSnoc(invs, inv, k, row);
      }
    }
  }

  method GroupByRate(invs: seq<Invoice>) returns (groups: map<RateKey, RateRow>)
    ensures GroupedByRate(invs, groups)
  {
    groups := map[];
    for n := 0 to |invs|
      invariant GroupedByRate(invs[..n], groups)
    {
      var inv := invs[n];
      var k := RateKeyOf(inv);
      var row := if k in groups then groups[k] else RateRow(k.0, 0, 0, 0, 0);
      GroupedByRateSnoc(invs[..n], inv, groups, row);
      assert invs[..n + 1] == invs[..n] + [inv];
      groups := groups[k := RateRow(row.rate, row.count + 1, row.net + inv.net, row.tax + inv.tax,
                                    row.gross + inv.gross)];
    }
    assert invs[..|invs|] == invs;
  }

  /** Within one group the direction is fixed, so one of the two sides has all of the group. */
  lemma {:induction false} GroupHasOneSide(invs: seq<Invoice>, k: RateKey)
    ensures SumOf(invs, RateKeyOf, k, OutputTax) == if k.1 == OUTPUT then SumOf(invs, RateKeyOf, k, TaxOf) else 0
    ensures SumOf(invs, RateKeyOf, k, InputTax) == if k.1 == OUTPUT then 0 else SumOf(invs, RateKeyOf, k, TaxOf)
    ensures SumOf(invs, RateKeyOf, k, OutputNet) == if k.1 == OUTPUT then SumOf(invs, RateKeyOf, k, NetOf) else 0
    ensures SumOf(invs, RateKeyOf, k, InputNet) == if k.1 == OUTPUT then 0 else SumOf(invs, RateKeyOf, k, NetOf)
  {
    if invs != [] {
      GroupHasOneSide(invs[..|invs| - 1], k);
    }
  }

  datatype CrossCheck = CrossCheck(outputRates: seq<RateRow>, inputRates: seq<RateRow>,
                                   outputTotal: int, inputTotal: int, netPayable: int, warnings: seq<int>)

  predicate HasRate(rows: seq<RateRow>, rate: int) {
    exists i :: 0 <= i < |rows| && rows[i].rate == rate
  }

  /** The groups of one side, in the order in which the map gives them. */
  function SideRows(keys: seq<RateKey>, groups: map<RateKey, RateRow>, output: bool): seq<RateRow>
    requires forall k | k in keys :: k in groups
  {
    if keys == [] then []
    else
      var k := keys[|keys| - 1];
      var rows := SideRows(keys[..|keys| - 1], groups, output);
      if (k.1 == OUTPUT) == output then rows + [groups[k]] else rows
  }

  /** If only the groups of one side have a share of f, the rows of that side add up to all of f. */
  lemma {:induction false} SideSum(invs: seq<Invoice>, keys: seq<RateKey>, groups: map<RateKey, RateRow>, output: bool,
                                   column: RateRow -> int, f: Invoice -> int)
    requires forall k | k in keys :: k in groups
    requires forall k | k in keys ::
               SumOf(invs, RateKeyOf, k, f) == if (k.1 == OUTPUT) == output then column(groups[k]) else 0
    ensures Sum(SideRows(keys, groups, output), column) == SumGroups(invs, RateKeyOf, keys, f)
  {
    if keys != [] {
      var n := |keys| - 1;
      var rows := SideRows(keys[..n], groups, output);
      SideSum(invs, keys[..n], groups, output, column, f);
      assert (rows + [groups[keys[n]]])[..|rows|] == rows;
    }
  }

  lemma SideSums(invs: seq<Invoice>, keys: seq<RateKey>, groups: map<RateKey, RateRow>)
    requires forall k | k in keys :: k in groups && RateRowOf(invs, k, groups[k])
    ensures Sum(SideRows(keys, groups, true), RowTax) == SumGroups(invs, RateKeyOf, keys, OutputTax)
    ensures Sum(SideRows(keys, groups, true), RowNet) == SumGroups(invs, RateKeyOf, keys, OutputNet)
    ensures Sum(SideRows(keys, groups, false), RowTax) == SumGroups(invs, RateKeyOf, keys, InputTax)
    ensures Sum(SideRows(keys, groups, false), RowNet) == SumGroups(invs, RateKeyOf, keys, InputNet)
  {
    forall k | k in keys
      ensures SumOf(invs, RateKeyOf, k, OutputTax) == if k.1 == OUTPUT then RowTax(groups[k]) else 0
      ensures SumOf(invs, RateKeyOf, k, OutputNet) == if k.1 == OUTPUT then RowNet(groups[k]) else 0
      ensures SumOf(invs, RateKeyOf, k, InputTax) == if k.1 == OUTPUT then 0 else RowTax(groups[k])
      ensures SumOf(invs, RateKeyOf, k, InputNet) == if k.1 == OUTPUT then 0 else RowNet(groups[k])
    {
      GroupHasOneSide(invs, k);
    }
    SideSum(invs, keys, groups, true, RowTax, OutputTax);
    SideSum(invs, keys, groups, true, RowNet, OutputNet);
    SideSum(invs, keys, groups, false, RowTax, InputTax);
    SideSum(invs, keys, groups, false, RowNet, InputNet);
  }

  /** The row holds the sums of the invoices of direction d whose rate is the row's, of which there are some. */
  ghost predicate StatesRate(invs: seq<Invoice>, d: string, r: RateRow) {
    && Occurs(invs, d, r.rate)
    && r.count == AtRate(invs, d, r.rate, One)
    && r.net == AtRate(invs, d, r.rate, NetOf)
    && r.tax == AtRate(invs, d, r.rate, TaxOf)
    && r.gross == AtRate(invs, d, r.rate, GrossOf)
  }

  ghost predicate RateGroup(invs: seq<Invoice>, output: bool, r: RateRow) {
    exists d: string :: (d == OUTPUT <==> output) && StatesRate(invs, d, r)
  }

  lemma GroupStatesRate(invs: seq<Invoice>, k: RateKey, r: RateRow)
    requires RateRowOf(invs, k, r) && r.count > 0
    ensures RateGroup(invs, k.1 == OUTPUT, r)
  {
    AtRateIsGroup(invs, k.1, k.0, One);
    AtRateIsGroup(invs, k.1, k.0, NetOf);
    AtRateIsGroup(invs, k.1, k.0, TaxOf);
    AtRateIsGroup(invs, k.1, k.0, GrossOf);
    CountedOccurs(invs, k.1, k.0);
    assert StatesRate(invs, k.1, r);
  }

  lemma {:induction false} SideRowsAreGroups(invs: seq<Invoice>, keys: seq<RateKey>, groups: map<RateKey, RateRow>,
                                             output: bool)
    requires forall k | k in keys :: k in groups && RateRowOf(invs, k, groups[k]) && groups[k].count > 0
    ensures forall r | r in SideRows(keys, groups, output) :: RateGroup(invs, output, r)
  {
    if keys != [] {
      var k := keys[|keys| - 1];
      SideRowsAreGroups(invs, keys[..|keys| - 1], groups, output);
      GroupStatesRate(invs, k, groups[k]);
    }
  }

  lemma {:induction false} SideRatesAre(keys: seq<RateKey>, groups: map<RateKey, RateRow>, output: bool, rate: int)
    requires forall k | k in keys :: k in groups && groups[k].rate == k.0
    ensures HasRate(SideRows(keys, groups, output), rate)
            <==> exists k :: k in keys && k.0 == rate && (k.1 == OUTPUT <==> output)
  {
    if keys != [] {
      var n := |keys| - 1;
      SideRatesAre(keys[..n], groups, output, rate);
      HasRateSnoc(SideRows(keys[..n], groups, output), groups[keys[n]]);
      assert keys == keys[..n] + [keys[n]];
    }
  }

  /** On the output side there is one direction, so no rate comes twice. */
  lemma {:induction false} OutputRatesDiffer(keys: seq<RateKey>, groups: map<RateKey, RateRow>)
    requires Distinct(keys)
    requires forall k | k in keys :: k in groups && groups[k].rate == k.0
    ensures RatesDiffer(SideRows(keys, groups, true))
  {
    if keys != [] {
      var n := |keys| - 1;
      var rows := SideRows(keys[..n], groups, true);
      OutputRatesDiffer(keys[..n], groups);
      SideRatesAre(keys[..n], groups, true, keys[n].0);
      forall i | keys[n].1 == OUTPUT && 0 <= i < |rows| ensures rows[i].rate != keys[n].0 {
        assert HasRate(rows, rows[i].rate);
      }
    }
  }

  ghost predicate RatesDiffer(rows: seq<RateRow>) {
    forall i, j :: 0 <= i < j < |rows| ==> rows[i].rate != rows[j].rate
  }

  /** Distribute the groups over the two sides, adding up each side's tax. */
  method SplitSides(keys: seq<RateKey>, groups: map<RateKey, RateRow>)
    returns (outputRates: seq<RateRow>, inputRates: seq<RateRow>, outputTotal: int, inputTotal: int)
    requires forall k | k in keys :: k in groups
    ensures outputRates == SideRows(keys, groups, true) && outputTotal == Sum(outputRates, RowTax)
    ensures inputRates == SideRows(keys, groups, false) && inputTotal == Sum(inputRates, RowTax)
  {
    outputRates, inputRates, outputTotal, inputTotal := [], [], 0, 0;
    for n := 0 to |keys|
      invariant outputRates == SideRows(keys[..n], groups, true) && outputTotal == Sum(outputRates, RowTax)
      invariant inputRates == SideRows(keys[..n], groups, false) && inputTotal == Sum(inputRates, RowTax)
    {
      var k := keys[n];
      var row := groups[k];
      assert keys[..n + 1][..n] == keys[..n];
      if k.1 == OUTPUT {
        assert (outputRates + [row])[..|outputRates|] == outputRates;
        outputRates := outputRates + [row];
        outputTotal := outputTotal + row.tax;
      } else {
        assert (inputRates + [row])[..|inputRates|] == inputRates;
        inputRates := inputRates + [row];
        inputTotal := inputTotal + row.tax;
      }
    }
    assert keys[..|keys|] == keys;
  }

  method Unmatched(inputRates: seq<RateRow>, outputRates: seq<RateRow>) returns (warnings: seq<int>)
    ensures forall rate :: rate in warnings <==> HasRate(inputRates, rate) && !HasRate(outputRates, rate)
  {
    warnings := [];
    for n := 0 to |inputRates|
      invariant forall rate :: rate in warnings <==> HasRate(inputRates[..n], rate) && !HasRate(outputRates, rate)
    {
      var rate := inputRates[n].rate;
      HasRateSnoc(inputRates[..n], inputRates[n]);
      assert inputRates[..n + 1] == inputRates[..n] + [inputRates[n]];
      if !HasRate(outputRates, rate) {
        warnings := warnings + [rate];
      }
    }
    assert inputRates[..|inputRates|] == inputRates;
  }

  lemma HasRateSnoc(rows: seq<RateRow>, row: RateRow)
    ensures forall rate :: HasRate(rows + [row], rate) <==> HasRate(rows, rate) || rate == row.rate
  {
    forall rate
      ensures HasRate(rows + [row], rate) <==> HasRate(rows, rate) || rate == row.rate
    {
      assert (rows + [row])[|rows|] == row;
      if HasRate(rows, rate) {
        var i :| 0 <= i < |rows| && rows[i].rate == rate;
        assert (rows + [row])[i].rate == rate;
      }
    }
  }

  /** The rows of a cross check are the groups of its invoices: none invented, none missing, no output rate twice. */
  ghost predicate RatesOf(invs: seq<Invoice>, outputRates: seq<RateRow>, inputRates: seq<RateRow>) {
    && (forall r | r in outputRates :: RateGroup(invs, true, r))
    && (forall r | r in inputRates :: RateGroup(invs, false, r))
    && (forall inv, rate | inv in invs && IsRate(inv, rate) ::
          HasRate(if IsOutput(inv) then outputRates else inputRates, rate))
    && RatesDiffer(outputRates)
  }

  lemma {:induction false} SidesAreRates(invs: seq<Invoice>, keys: seq<RateKey>, groups: map<RateKey, RateRow>)
    requires GroupedByRate(invs, groups) && Distinct(keys) && forall k :: k in keys <==> k in groups
    ensures RatesOf(invs, SideRows(keys, groups, true), SideRows(keys, groups, false))
  {
    SideRowsAreGroups(invs, keys, groups, true);
    SideRowsAreGroups(invs, keys, groups, false);
    OutputRatesDiffer(keys, groups);
    forall inv, rate | inv in invs && IsRate(inv, rate)
      ensures HasRate(SideRows(keys, groups, IsOutput(inv)), rate)
    {
      RateIsNearest(inv, rate);
      assert RateKeyOf(inv) in keys;
      SideRatesAre(keys, groups, IsOutput(inv), rate);
    }
  }

  /** The totals by rate are the plain totals of the invoice list. */
  method VATCrossCheck(invs: seq<Invoice>) returns (cc: CrossCheck)
    ensures RatesOf(invs, cc.outputRates, cc.inputRates)
    ensures cc.outputTotal == Sum(cc.outputRates, RowTax) == Sum(invs, OutputTax)
    ensures cc.inputTotal == Sum(cc.inputRates, RowTax) == Sum(invs, InputTax)
    ensures Sum(cc.outputRates, RowNet) == Sum(invs, OutputNet)
    ensures Sum(cc.inputRates, RowNet) == Sum(invs, InputNet)
    ensures cc.netPayable == Sum(invs, OutputTax) - Sum(invs, InputTax)
    ensures forall rate :: rate in cc.warnings <==> HasRate(cc.inputRates, rate) && !HasRate(cc.outputRates, rate)
  {
    var groups := GroupByRate(invs);
    var keys := KeysOf(groups);
    var outputRates, inputRates, outputTotal, inputTotal := SplitSides(keys, groups);
    SidesAreRates(invs, keys, groups);
    SideSums(invs, keys, groups);
    GroupsAddUp(invs, RateKeyOf, keys, OutputTax);
    GroupsAddUp(invs, RateKeyOf, keys, InputTax);
    GroupsAddUp(invs, RateKeyOf, keys, OutputNet);
    GroupsAddUp(invs, RateKeyOf, keys, InputNet);
    var warnings := Unmatched(inputRates, outputRates);
    cc := CrossCheck(outputRates, inputRates, outputTotal, inputTotal, outputTotal - inputTotal, warnings);
  }

  // ---- What the rates mean ----

  /** The rate is the tax over the net, within half a percent. */
  predicate NearRate(rate: int, net: int, tax: int) { -net <= 2 * (100 * tax - rate * net) <= net }

  lemma NearAdds(rate: int, net: int, tax: int, inv: Invoice)
    requires NearRate(rate, net, tax) && IsRate(inv, rate) && inv.net > 0
    ensures NearRate(rate, net + inv.net, tax + inv.tax)
  {
    assert rate * (net + inv.net) == rate * net + rate * inv.net;
  }

  /** The invoices of direction d at this rate have a positive net amount, as they do at every rate but zero. */
  ghost predicate PositiveAt(invs: seq<Invoice>, d: string, rate: int) {
    forall inv | inv in invs && inv.direction == d && IsRate(inv, rate) :: inv.net > 0
  }

  lemma {:induction false} SumsAreNear(invs: seq<Invoice>, d: string, rate: int)
    requires PositiveAt(invs, d, rate)
    ensures NearRate(rate, AtRate(invs, d, rate, NetOf), AtRate(invs, d, rate, TaxOf))
  {
    if invs != [] {
      var before, inv := invs[..|invs| - 1], invs[|invs| - 1];
      SumsAreNear(before, d, rate);
      if inv.direction == d && IsRate(inv, rate) {
        assert inv in invs;
        NearAdds(rate, AtRate(before, d, rate, NetOf), AtRate(before, d, rate, TaxOf), inv);
      }
    }
  }

  lemma StatedIsNear(invs: seq<Invoice>, d: string, r: RateRow)
    requires StatesRate(invs, d, r) && PositiveAt(invs, d, r.rate)
    ensures NearRate(r.rate, r.net, r.tax)
  {
    SumsAreNear(invs, d, r.rate);
  }

  /** The rate a row states is, within half a percent, the tax of the row over its net. */
  lemma RowsAreNear(invs: seq<Invoice>, output: bool, r: RateRow)
    requires RateGroup(invs, output, r)
    requires r.rate != 0 || forall d :: PositiveAt(invs, d, 0)
    ensures NearRate(r.rate, r.net, r.tax)
  {
    var d: string :| StatesRate(invs, d, r);
    StatedIsNear(invs, d, r);
  }

  /**
   An invoice whose tax is a whole percent of its net is in a row of exactly that rate, and two invoices of
   different such rates are never in the same row.
   */
  lemma WholeRatesHaveRows(invs: seq<Invoice>, outputRates: seq<RateRow>, inputRates: seq<RateRow>, inv: Invoice,
                           percent: int)
    requires RatesOf(invs, outputRates, inputRates) && inv in invs
    requires inv.net > 0 && 100 * inv.tax == percent * inv.net
    ensures HasRate(if IsOutput(inv) then outputRates else inputRates, percent)
    ensures forall rate :: IsRate(inv, rate) <==> rate == percent
  {
    RateIsNearest(inv, percent);
    forall rate ensures IsRate(inv, rate) <==> rate == percent {
      RateIsNearest(inv, rate);
    }
  }

  /** An only invoice makes a row of itself. */
  lemma OneInvoiceRow(inv: Invoice, d: string, r: RateRow)
    requires StatesRate([inv], d, r)
    ensures d == inv.direction && IsRate(inv, r.rate) && r == RateRow(r.rate, 1, inv.net, inv.tax, inv.gross)
  {
    assert [inv][..0] == [];
    assert AtRate([inv][..0], d, r.rate, One) == 0 && AtRate([inv][..0], d, r.rate, NetOf) == 0;
    assert AtRate([inv][..0], d, r.rate, TaxOf) == 0 && AtRate([inv][..0], d, r.rate, GrossOf) == 0;
  }

  /** A rate is on a side exactly if some invoice of that side has it, and so a warning names exactly these. */
  lemma RatesAreInvoiced(invs: seq<Invoice>, outputRates: seq<RateRow>, inputRates: seq<RateRow>, rate: int)
    requires RatesOf(invs, outputRates, inputRates)
    ensures HasRate(outputRates, rate) <==> exists inv | inv in invs :: IsOutput(inv) && IsRate(inv, rate)
    ensures HasRate(inputRates, rate) <==> exists inv | inv in invs :: !IsOutput(inv) && IsRate(inv, rate)
  {
    if i :| 0 <= i < |outputRates| && outputRates[i].rate == rate {
      assert outputRates[i] in outputRates;
    }
    if i :| 0 <= i < |inputRates| && inputRates[i].rate == rate {
      assert inputRates[i] in inputRates;
    }
  }

  // ---- Return ----

  datatype ScheduleRow = ScheduleRow(rowNo: int, rate: int, net: int, tax: int)

  function ScheduledTax(r: ScheduleRow): int { r.tax }

  function ScheduledNet(r: ScheduleRow): int { r.net }

  /** One numbered row for each rate, in the same order, with the same sums. */
  method Schedule(rates: seq<RateRow>) returns (schedule: seq<ScheduleRow>)
    ensures |schedule| == |rates|
    ensures forall i :: 0 <= i < |rates| ==>
              schedule[i] == ScheduleRow(i + 1, rates[i].rate, rates[i].net, rates[i].tax)
    ensures Sum(schedule, ScheduledTax) == Sum(rates, RowTax)
    ensures Sum(schedule, ScheduledNet) == Sum(rates, RowNet)
  {
    schedule := [];
    var rowNo := 1;
    for n := 0 to |rates|
      invariant |schedule| == n && rowNo == n + 1
      invariant forall i :: 0 <= i < n ==>
                  schedule[i] == ScheduleRow(i + 1, rates[i].rate, rates[i].net, rates[i].tax)
      invariant Sum(schedule, ScheduledTax) == Sum(rates[..n], RowTax)
      invariant Sum(schedule, ScheduledNet) == Sum(rates[..n], RowNet)
    {
      var row := ScheduleRow(rowNo, rates[n].rate, rates[n].net, rates[n].tax);
      assert rates[..n + 1][..n] == rates[..n];
      assert (schedule + [row])[..n] == schedule;
      schedule := schedule + [row];
      rowNo := rowNo + 1;
    }
    assert rates[..|rates|] == rates;
  }

  /** The main table of the return for the two tax totals. */
  function MainTable(outputTax: int, inputTax: int): VATOutput {
    WithSurcharges(outputTax, inputTax, outputTax - inputTax, 7)
  }

  method FillMainTable(cc: CrossCheck) returns (main: VATOutput)
    requires cc.netPayable == cc.outputTotal - cc.inputTotal
    ensures main == MainTable(cc.outputTotal, cc.inputTotal)
  {
    var p := cc.netPayable;
    var urban, education, localEducation := Round(p * 7, 100), Round(p * 3, 100), Round(p * 2, 100);
    main := VATOutput(cc.outputTotal, cc.inputTotal, p, urban, education, localEducation,
                      p + urban + education + localEducation);
  }

  /**
   Row by row, numbered from one, the net amount and the tax of one rate and direction of the given side, and a
   row for the rate of each invoice of that side.
   */
  ghost predicate Schedules(invs: seq<Invoice>, output: bool, schedule: seq<ScheduleRow>) {
    && (forall i :: 0 <= i < |schedule| ==> schedule[i].rowNo == i + 1 && ScheduledRate(invs, output, schedule[i]))
    && (forall inv, rate | inv in invs && IsOutput(inv) == output && IsRate(inv, rate) :: HasRow(schedule, rate))
  }

  predicate HasRow(schedule: seq<ScheduleRow>, rate: int) {
    exists i :: 0 <= i < |schedule| && schedule[i].rate == rate
  }

  ghost predicate ScheduledRate(invs: seq<Invoice>, output: bool, row: ScheduleRow) {
    exists d: string :: && (d == OUTPUT <==> output) && Occurs(invs, d, row.rate)
                        && row.net == AtRate(invs, d, row.rate, NetOf)
                        && row.tax == AtRate(invs, d, row.rate, TaxOf)
  }

  lemma ScheduledIsNear(invs: seq<Invoice>, d: string, row: ScheduleRow)
    requires PositiveAt(invs, d, row.rate)
    requires row.net == AtRate(invs, d, row.rate, NetOf) && row.tax == AtRate(invs, d, row.rate, TaxOf)
    ensures NearRate(row.rate, row.net, row.tax)
  {
    SumsAreNear(invs, d, row.rate);
  }

  /** So does the rate of a schedule row. */
  lemma SchedulesAreNear(invs: seq<Invoice>, output: bool, row: ScheduleRow)
    requires ScheduledRate(invs, output, row)
    requires row.rate != 0 || forall d :: PositiveAt(invs, d, 0)
    ensures NearRate(row.rate, row.net, row.tax)
  {
    var d: string :| && Occurs(invs, d, row.rate)
                     && row.net == AtRate(invs, d, row.rate, NetOf) && row.tax == AtRate(invs, d, row.rate, TaxOf);
    ScheduledIsNear(invs, d, row);
  }

  lemma ScheduleStatesRates(invs: seq<Invoice>, output: bool, rates: seq<RateRow>, schedule: seq<ScheduleRow>)
    requires forall r | r in rates :: RateGroup(invs, output, r)
    requires forall inv, rate | inv in invs && IsOutput(inv) == output && IsRate(inv, rate) :: HasRate(rates, rate)
    requires |schedule| == |rates|
    requires forall i :: 0 <= i < |rates| ==>
               schedule[i] == ScheduleRow(i + 1, rates[i].rate, rates[i].net, rates[i].tax)
    ensures Schedules(invs, output, schedule)
  {
    forall i | 0 <= i < |schedule| ensures ScheduledRate(invs, output, schedule[i]) {
      assert rates[i] in rates;
      var d: string :| (d == OUTPUT <==> output) && StatesRate(invs, d, rates[i]);
      assert Occurs(invs, d, schedule[i].rate) && schedule[i].net == AtRate(invs, d, schedule[i].rate, NetOf);
    }
    forall inv, rate | inv in invs && IsOutput(inv) == output && IsRate(inv, rate) ensures HasRow(schedule, rate) {
      var i :| 0 <= i < |rates| && rates[i].rate == rate;
      assert schedule[i].rate == rate;
    }
  }

  method VATReturn(invs: seq<Invoice>)
    returns (schedule1: seq<ScheduleRow>, schedule2: seq<ScheduleRow>, main: VATOutput)
    ensures Schedules(invs, true, schedule1) && Schedules(invs, false, schedule2)
    ensures Sum(schedule1, ScheduledTax) == SummaryOf(invs).outputTax == main.outputTax
    ensures Sum(schedule2, ScheduledTax) == SummaryOf(invs).inputTax == main.inputTax
    ensures Sum(schedule1, ScheduledNet) == SummaryOf(invs).outputNet
    ensures Sum(schedule2, ScheduledNet) == SummaryOf(invs).inputNet
    ensures main == MainTable(Sum(invs, OutputTax), Sum(invs, InputTax))
  {
    var cc := VATCrossCheck(invs);
    schedule1 := Schedule(cc.outputRates);
    schedule2 := Schedule(cc.inputRates);
    ScheduleStatesRates(invs, true, cc.outputRates, schedule1);
    ScheduleStatesRates(invs, false, cc.inputRates, schedule2);
    main := FillMainTable(cc);
  }

  /**
   The return's main table is what the tax engine computes for a general taxpayer exactly when output tax is
   at least input tax; otherwise the return shows a negative tax and the engine shows none.
   */
  lemma ReturnAgreesWithEngine(outputTax: int, inputTax: int, sales: nat, levyNum: int, levyDen: int)
    requires outputTax >= 0 && inputTax >= 0 && levyDen > 0
    ensures Calculate(VATInput(General, outputTax, inputTax, sales, levyNum, levyDen))
            == Success(MainTable(outputTax, inputTax))
            <==> outputTax >= inputTax
  {
  }

  /** In every reachable state the posted invoices give non-negative totals with net plus tax equal to gross. */
  lemma {:induction false} PostedTotalsAreSound(invs: seq<Invoice>, k: PeriodKey)
    requires Transitions.SoundInvoices(invs)
    ensures var s := SummaryOf(PostedInvoices(invs, k));
            && s.outputTax >= 0 && s.inputTax >= 0
            && s.outputNet + s.outputTax == s.outputGross
            && s.inputNet + s.inputTax == s.inputGross
  {
    if invs != [] {
      var n := |invs| - 1;
      PostedTotalsAreSound(invs[..n], k);
      var posted := PostedInvoices(invs[..n], k);
      if PostedIn(invs[n], k) {
        assert (posted + [invs[n]])[..|posted|] == posted;
      } else {
        assert PostedInvoices(invs, k) == posted;
      }
    }
  }

  // ---- The journal and the VAT summary ----

  /** The lines of the drafts of some invoices. */
  function DraftLines(invs: seq<Invoice>): seq<Line> {
    if invs == [] then [] else DraftLines(invs[..|invs| - 1]) + InvoiceLines(invs[|invs| - 1])
  }

  const INPUT_TAX: Account := ("2221-01", "应交税费-应交增值税-进项税额")
  const OUTPUT_TAX: Account := ("2221-02", "应交税费-应交增值税-销项税额")

  lemma NetOfThree(l: seq<Line>, a: Account)
    requires |l| == 3
    ensures Balance.Net(l, a) == Share(l[0], a) + Share(l[1], a) + Share(l[2], a)
  {
    assert l == [l[0]] + [l[1]] + [l[2]];
    SumOfConcat([l[0]] + [l[1]], [l[2]], AccountOf, a, LineNet);
    SumOfConcat([l[0]], [l[1]], AccountOf, a, LineNet);
    SumOfSingle(l[0], AccountOf, a, LineNet);
    SumOfSingle(l[1], AccountOf, a, LineNet);
    SumOfSingle(l[2], AccountOf, a, LineNet);
  }

  /** What one line brings to an account. */
  function Share(l: Line, a: Account): int { if AccountOf(l) == a then LineNet(l) else 0 }

  lemma OtherCode(l: Line, a: Account)
    requires l.code != a.0
    ensures Share(l, a) == 0
  {
  }

  function ExpenseAccount(inv: Invoice): Account { (inv.expenseCode, inv.expenseName) }

  /** The draft books its net amount on none of the two tax accounts. */
  predicate KeepsNetOffTax(inv: Invoice) {
    IsOutput(inv) || inv.net == 0 || (ExpenseAccount(inv) != INPUT_TAX && ExpenseAccount(inv) != OUTPUT_TAX)
  }

  /** The draft moves the tax accounts by exactly the invoice's taxes. */
  predicate BooksItself(inv: Invoice) {
    && Balance.Net(InvoiceLines(inv), INPUT_TAX) == InputTax(inv)
    && Balance.Net(InvoiceLines(inv), OUTPUT_TAX) == -OutputTax(inv)
  }

  /** An invoice's draft does that exactly if its expense account is no tax account, or nothing goes there. */
  lemma DraftBooksVat(inv: Invoice)
    ensures BooksItself(inv) <==> KeepsNetOffTax(inv)
  {
    if IsOutput(inv) {
      OutputLinesNet(inv);
    } else {
      InputLinesNet(inv);
    }
  }

  lemma TaxAccountsDiffer()
    ensures INPUT_TAX != OUTPUT_TAX && |INPUT_TAX.0| == |OUTPUT_TAX.0| == 7
  {
    assert INPUT_TAX.0[6] == '1' && OUTPUT_TAX.0[6] == '2';
  }

  lemma InputLinesNet(inv: Invoice)
    ensures Balance.Net(InputLines(inv), INPUT_TAX)
            == inv.tax + if ExpenseAccount(inv) == INPUT_TAX then inv.net else 0
    ensures Balance.Net(InputLines(inv), OUTPUT_TAX) == if ExpenseAccount(inv) == OUTPUT_TAX then inv.net else 0
  {
    var l := InputLines(inv);
    TaxAccountsDiffer();
    NetOfThree(l, INPUT_TAX);
    NetOfThree(l, OUTPUT_TAX);
    assert AccountOf(l[0]) == ExpenseAccount(inv) && AccountOf(l[1]) == INPUT_TAX && |l[2].code| == 4;
    OtherCode(l[2], INPUT_TAX);
    OtherCode(l[2], OUTPUT_TAX);
  }

  lemma OutputLinesNet(inv: Invoice)
    ensures Balance.Net(OutputLines(inv), INPUT_TAX) == 0 && Balance.Net(OutputLines(inv), OUTPUT_TAX) == -inv.tax
  {
    var l := OutputLines(inv);
    TaxAccountsDiffer();
    NetOfThree(l, INPUT_TAX);
    NetOfThree(l, OUTPUT_TAX);
    assert AccountOf(l[2]) == OUTPUT_TAX && |l[0].code| == 4 && |l[1].code| == 4;
    OtherCode(l[0], INPUT_TAX);
    OtherCode(l[1], INPUT_TAX);
    OtherCode(l[0], OUTPUT_TAX);
    OtherCode(l[1], OUTPUT_TAX);
  }

  /** The tax accounts of the drafts of any invoices agree with their VAT summary. */
  lemma {:induction false} JournalAgreesWithSummary(invs: seq<Invoice>)
    requires forall inv | inv in invs :: KeepsNetOffTax(inv)
    ensures Balance.Net(DraftLines(invs), INPUT_TAX) == SummaryOf(invs).inputTax
    ensures Balance.Net(DraftLines(invs), OUTPUT_TAX) == -SummaryOf(invs).outputTax
  {
    if invs != [] {
      var n := |invs| - 1;
      JournalAgreesWithSummary(invs[..n]);
      DraftBooksVat(invs[n]);
      SumOfConcat(DraftLines(invs[..n]), InvoiceLines(invs[n]), AccountOf, INPUT_TAX, LineNet);
      SumOfConcat(DraftLines(invs[..n]), InvoiceLines(invs[n]), AccountOf, OUTPUT_TAX, LineNet);
    }
  }

  lemma {:induction false} ReachableReturnsAgree(periods: map<PeriodKey, PeriodStatus>, run: seq<Phases.Event>,
                                                 k: PeriodKey)
    ensures var invs := PostedInvoices(Phases.Exec(Phases.Fresh(periods), run).db.invoices, k);
            var s := SummaryOf(invs);
            && s.outputNet + s.outputTax == s.outputGross && s.inputNet + s.inputTax == s.inputGross
            && (Calculate(VATInput(General, s.outputTax, s.inputTax, 0, 0, 1))
                == Success(MainTable(s.outputTax, s.inputTax))
                <==> s.outputTax >= s.inputTax)
  {
    Transitions.ApprovedAtMostOnce(periods, run, 0);
    var all := Phases.Exec(Phases.Fresh(periods), run).db.invoices;
    PostedTotalsAreSound(all, k);
    var s := SummaryOf(PostedInvoices(all, k));
    ReturnAgreesWithEngine(s.outputTax, s.inputTax, 0, 0, 1);
  }
}
