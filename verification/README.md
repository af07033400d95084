# Verified model of the finance provider's ledger, reports and taxes

The provider keeps three tables (journal entries with their lines, invoices, accounting periods), answers
idempotent requests over them, derives reports from the posted rows, and computes taxes. This project models
that logic in Dafny and proves what holds over every input, every history of calls, and every interleaving
of requests. Check it with `dafny verify dfyconfig.toml`.

## How the model is laid out

- `Ledger` is one service call at a time: tables, guards, UNIQUE keys, and `Apply`, what each call does to the
  tables and answers. `Service` is the object whose methods change the tables in place, statement by statement
  and with rollbacks, each proved to do what `Apply` says.
- `Answers` says what each call answers and does in terms of the tables alone: why an input is refused, and the row
  that is added or changed otherwise. `Bookings` says on which accounts and sides an invoice is booked.
- `Phases` breaks the same calls at every read, every statement outside a transaction, and every transaction,
  and lets any number of requests interleave. `Runs` puts interleavings together and says which requests they
  need; `RunAloneIsApply` and `HistoriesAreRuns` connect the two levels.
- `Balance`, `Vouchers`, `Jams`, `Transitions`, `InvoiceNumbers` and `FrozenPeriods` are about all interleavings
  (in `Vouchers`, `JamIsPermanent`, `BehindNeverJams` and `JamsExactly` are about calls that do not overlap, and
  `Jams` gives their interleaved form); `Histories`, `VoidEffects` and `VatLedger` are about calls that do not
  overlap; `TornDrafts` and `Races` give the interleavings on which guarantees fail.
- `TrialBalance`, `VatReport`, `Report`, `ReportBuilder`, `Sheet`, `SeededProfit`, `SeededSheet`, `VoidedStatement`
  and `InvoicedProfit` are the reports, `Pit`, `Cit` and `Tax` the taxes, `Risk` the run detection, `Idempotency`
  the request layer and `Overlaps` its requests at once.
- `Prelude`, `Grouping` and `Money` hold sums, grouping, sorting and rounding.

Amounts are whole cents, as the NUMERIC(18,2) columns store them, so `moneyEqual` is equality; a rate times an
amount is a fraction rounded half away from zero. A row id is the row's position: rows are never deleted, and
a fresh id is the next position. An entry's `source` is set when its source type is "invoice" and its source id
is not empty. An entry and its lines are read in one step, and so are the three checks of a closing period.
Time, identifiers, the month that a typed issue date falls back to, and the format checks of an invoice are
parameters.

## What the code turned out to do

These are theorems of the model, each with the exact condition or the states it starts from.

- A journal draft is created outside a transaction, so a post or a void can catch it half-written. What is
  posted balances under every interleaving exactly if no draft sent for creation has a balanced prefix that
  later stops balancing (`CleanExactly`), and every posted entry is voided with its exact mirror, or by a late
  void, exactly if no draft has a balanced proper prefix at all (`IndivisibleExactly`).
- A void decided on while the entry was a draft also voids it after it has been posted, without a reversal,
  and its invoice stays posted (`LateVoidLosesEntry`). Posted invoices keep a posted entry exactly as long as no
  such void takes the last one (`LinkedExactly`); four requests suffice to lose it (`FourRequestsUnlink`).
- A void that passed its period check lands after the period has been closed and locked
  (`LockedPeriodStillVoided`). Under overlapping requests the journal of a locked period is frozen exactly if no
  draft of it is left and nothing in flight has passed its period check with a write that still succeeds
  (`FrozenExactly`).
- `docs/03-domain-model.md:329` says a locked period is not written. Without overlaps its journal is indeed
  frozen (`LockedForever`), but its VAT list still changes on exactly one kind of call (`VatListChangesExactly`,
  `LockedVatListMoves`).
- UpdateJournalDraft never succeeds: it voids the draft and then asks for the voucher number the voided row
  keeps (`UpdateDraftNeverSucceeds`).
- An open period can be jammed, its next generated number being in use already. Calls that do not overlap do it
  with generated numbers exactly if some row has a number ahead of the row count (`JamsExactly`); a chosen number
  puts a row there exactly if it is printed for a count beyond the next one (`ChosenNumberAhead`). Calls that
  overlap do it exactly if some row has, or some creation in flight can still write, such a number
  (`JamsAtOnceExactly`).
- Between calls that do not overlap and take generated numbers, a jammed period gets no further row, reversals
  included (`JamIsPermanent`). In general a step adds a row to it exactly if it carries a number that is free
  there, typed or drawn earlier, and so never the next one (`AddsRowExactly`); that ends the jam exactly if neither
  it nor any row has the number after the next (`JamEndsExactly`), which can happen without any further request
  (`JamCanEnd`).
- A transactional void drops the entry and posts its reversal, so an account moves by minus twice the entry
  (`VoidMovesTwice`), while statements whose mappings ignore the direction do not move at all
  (`VoidLeavesStatement`), the seeded profit statement among them.
- The seeded profit mappings overlap: income tax cancels out of net profit and investment income counts twice
  (`SeededNetProfit`, `SeededOverlaps`).
- The seeded balance sheet adds debits and credits alike (`SheetTotals`) and shows twelve of its 25 lines
  (`SheetShows`), so the shown lines fall short of their totals by the hidden accounts (`ShownLinesFallShort`). The
  profit statement's surcharge field has another name than the seeded line and stays zero
  (`SurchargeFieldStaysZero`).
- A call keeps posted lines and VAT summary in agreement exactly if it moves the tax accounts as it moves the taxes
  of the posted invoices (`CallAgreesExactly`, over histories `HistoryAgreesExactly`). So a typed draft breaks it,
  when posted, exactly if it books VAT (`TypedDraftAgreesExactly`, `TypedVatBreaks`), a void of a posted entry exactly
  if the entry carries VAT (`VoidAgreesExactly`), and an invoice's own draft does not break it exactly if its expense
  account is no tax account or takes nothing (`DraftBooksVat`).
- Every period of a named book can be closed and reopened with nothing lost (`CloseThenReopen`), what it refused is
  taken again (`ReopenAdmits`), and lock and rejection are final under any interleaving (`LockedStays`,
  `RejectedStays`).
- The VAT return agrees with the tax engine exactly when output tax is at least input tax
  (`ReturnAgreesWithEngine`).
- A sound invoice of an open month always goes through (`InvoiceGoesThrough`) and moves the seeded net profit by its
  net amount (`InvoiceMovesProfit`).
- The small-profit tax has a cliff at three million yuan (`SmallProfitCliff`).
- A key executes as often as it is looked up before its first save, so twice exactly if a second lookup comes
  before that (`ExecutesTwiceExactly`, `OverlappingRequestsBothExecute`). A client that waits for each answer before
  it sends the key again gets one execution (`OneAtATimeExecutesOnce`).

## Model

| member | source | states |
|---|---|---|
| Service.Service.CreateRows | internal/store/postgres/journal.go:24-57 | header and lines are inserted row by row, or nothing if the voucher number is taken in its period |
| Service.Service.PostRow | internal/store/postgres/journal.go:140-157 | only a draft of the entity becomes posted |
| Service.Service.VoidRow | internal/store/postgres/journal.go:163-179 | a draft or posted entry becomes voided, nothing else changes |
| Service.Service.UpdateInvoiceStatus | internal/store/postgres/invoice.go:286-310 | compare-and-set on the invoice status |
| Service.Service.UpdatePeriodStatus | internal/store/postgres/period.go:108-146 | compare-and-set on the period status |
| Service.Service.GetOrCreatePeriod | internal/store/postgres/period.go:21-42 | an existing period is left alone, a missing one is opened |
| Service.Service.ListPostedLines | internal/store/postgres/journal.go:181-205 | the lines of the posted entries of the period, each as often as it occurs, ordered by account code |
| Service.Service.ValidateBalanced | internal/service/service.go:998-1008 | accepts exactly lines whose debits equal their credits |
| Service.Service.BuildReversal | internal/service/service.go:1049-1080 | same period and source, each line with direction and columns swapped |
| Service.Service.BuildJournalDraft | internal/service/service.go:904-980 | a draft for exactly the invoices with non-negative amounts that add up; Bookings.DraftBooksInvoice says on which accounts |
| Service.Service.CreateJournalDraft | internal/service/service.go:460-516 | tables and answer are those of the CreateDraft call |
| Service.Service.UpdateJournalDraft | internal/service/service.go:1239-1277 | tables and answer are those of the UpdateDraft call |
| Service.Service.PostJournalEntry | internal/service/service.go:538-596 | tables and answer are those of the Post call |
| Service.Service.VoidJournalEntry | internal/service/service.go:598-653 | tables and answer are those of the Void call, with rollback on any failure |
| Service.Service.BatchPostJournals | internal/service/service.go:1279-1289 | tables, posted ids and failure are those of posting the ids in turn |
| Service.Service.TrialBalance | internal/service/service.go:657-698 | one row per account of the period's posted lines, in code order, rows and totals being their sums, whatever order the store lists them in |
| Service.Service.CreateInvoiceDraft | internal/service/service.go:319-367 | tables and answer are those of the CreateInvoice call |
| Service.Service.ApproveInvoice | internal/service/service.go:389-445 | tables and answer are those of the Approve call, which Answers.ApproveAnswers describes, with rollback on any failure |
| Service.Service.RejectInvoice | internal/service/service.go:447-456 | tables and answer are those of the Reject call, which Answers.RejectAnswers describes |
| Service.Service.PendingInvoiceCount | internal/service/service.go:295-301 | the number of pending invoices, at most 1000, so positive exactly if the period has one |
| Service.Service.DraftJournalCount | internal/service/service.go:303-315 | the number of draft entries, at most 1000, so positive exactly if the period has one |
| Service.Service.VATSummary | internal/service/service.go:723-747 | the summary of the period's posted invoices, or a refusal of a malformed period |
| Service.Service.CloseCheck | internal/service/service.go:163-232 | passes exactly if there is no pending invoice, no draft, and the posted lines balance |
| Service.Service.ClosePeriod | internal/service/service.go:234-263 | tables and answer are those of the Close call |
| Service.Service.ReopenPeriod | internal/service/service.go:265-278 | tables and answer are those of the Reopen call, which Answers.ReopenAnswers describes: closed becomes open, or nothing changes |
| Service.Service.LockPeriod | internal/service/service.go:280-293 | tables and answer are those of the Lock call, which Answers.LockAnswers describes: closed becomes locked, or nothing changes |
| Answers.ReopenAnswers | internal/service/service.go:265-278 | reopening succeeds exactly on a closed period of a named book, which is then open, all other rows as before |
| Answers.LockAnswers | internal/service/service.go:280-293 | locking succeeds exactly on a closed period of a named book, which is then locked |
| Answers.OpenAnswers | internal/store/postgres/period.go:21-42 | a missing period becomes open, an existing one stays as it is |
| Answers.CloseAnswers | internal/service/service.go:163-263 | closing succeeds exactly on an open period of a named book with no pending invoice, no draft and equal posted totals, which is then closed; else nothing changes |
| Answers.CloseThenReopen | internal/service/service.go:234-278 | closing and reopening gives the tables back exactly |
| Answers.ReopenAdmits | internal/service/service.go:265-516 | a draft refused by a closed period is accepted after the reopening if and only if it was refused for that, balances, and its number is free |
| Answers.MonthCloses | internal/service/service.go:163-293 | a month without open work whose entries balance closes and then locks |
| Answers.StepMovesPeriods | internal/store/postgres/period.go:108-146 | under any interleaving a period's status makes six moves only, each by its own kind of request, and makes it whenever that request takes its step |
| Answers.LockedStays | internal/store/postgres/period.go:108-146 | a locked period stays locked under any interleaving |
| Answers.RejectAnswers | internal/service/service.go:447-456 | exactly a pending invoice of the entity can be rejected, and then is, all other rows as before |
| Answers.RejectedStays | internal/store/postgres/invoice.go:131-149 | a rejected invoice stays rejected under any interleaving |
| Answers.CreateInvoiceAnswers | internal/service/service.go:319-367 | refused for its amounts, direction, number or format, or for a closed period of its date; else found under its number or added pending |
| Answers.ApproveAnswers | internal/service/service.go:389-445 | the five refusals in order; else the invoice is approved and the draft that books it is added under the next number |
| Answers.CreateDraftAnswers | internal/service/service.go:460-516 | the refusals in order; else the draft is added as sent, under its own number or the next |
| Answers.UpdateAnswers | internal/service/service.go:1239-1277 | what an update is refused for, and that a draft is voided all the same |
| Answers.PostAnswers | internal/service/service.go:538-596 | the refusals in order; else the entry is posted, and with it the approved invoice of the entity it came from |
| Answers.VoidAnswers | internal/service/service.go:598-653 | the refusals in order; else the entry is voided and, if it was posted, its reversal is posted with every line turned |
| Answers.PeriodNames | internal/service/service.go:1022-1030 | a period is four digits, a dash, and a month from 01 to 12 |
| Answers.InvoiceGoesThrough | internal/service/service.go:319-596 | from every state, a sound new invoice of an open, unjammed period is created, approved and posted, ending as one posted invoice and one posted entry that books it, beside all that was there |
| Bookings.DraftBooksInvoice | internal/service/service.go:947-980 | on every account: a sale debits 1122 with gross and credits 6001 with net and 2221-02 with the tax, a purchase debits its expense account with net and 2221-01 with the tax and credits 1002 with gross; each line is on the side it names |
| Bookings.DraftsCarrySummary | internal/service/service.go:947-980 | for any invoices and any account, the drafts carry what the VAT summary says: receivables the gross sales, revenue the net sales, the bank the gross purchases, each expense account its purchases |
| InvoicedProfit.InvoiceMovesProfit | internal/service/service.go:1368-1428 | an invoice that goes through moves the seeded net profit of its month by its net amount, for a purchase times the weight of its expense account, whatever was posted before |
| Phases.RunAloneIsApply | internal/service/service.go:163-653 | the phases of any call, run with nothing in between, add up to the call |
| Runs.HistoriesAreRuns | internal/service/service.go:163-653 | every history of calls that do not overlap is one of the interleaved runs, with the same requests |
| Balance.MirrorTotals | internal/service/service.go:1063-1075 | a reversal swaps total debit and total credit |
| Balance.MirrorNetsToZero | internal/service/service.go:1063-1075 | an entry and its reversal cancel on every account |
| Balance.InvoiceLinesBalance | internal/service/service.go:947-980 | an invoice draft balances exactly when net plus tax is gross, and then totals gross |
| Balance.InterleavedRunsBalance | internal/service/service.go:538-653 | under every interleaving, if the drafts sent for creation have clean lines, every posted entry and every trial balance balances |
| TornDrafts.CleanExactly | internal/store/postgres/journal.go:20-57 | drafts with given lines keep what is posted balanced under every interleaving if and only if the lines, when they balance, are clean |
| TornDrafts.UncleanUnbalances | internal/store/postgres/journal.go:20-57 | every unclean balanced list, in every state that takes it, can leave an unbalanced posted reversal and nothing in flight |
| Balance.ReversalMirrors | internal/service/service.go:632-640 | where no draft has a balanced proper prefix, a reversal in flight mirrors the entry it will void, whatever other requests did meanwhile |
| Balance.HistoryBalances | internal/service/service.go:538-698 | over every history of calls the posted lines of every period balance |
| Vouchers.Pad3Value | internal/store/postgres/journal.go:215 | the %03d print can be read back |
| Vouchers.VoucherNoInjective | internal/store/postgres/journal.go:215 | different counts print different voucher numbers |
| Vouchers.VoucherNoPrints | internal/store/postgres/journal.go:207-216 | a number reads word, period and count in digits, filled with zeros up to three only |
| Vouchers.AdvanceGrowsRows | internal/store/postgres/journal.go:24-179 | no step deletes a row, changes its voucher number, or repeats one within a period |
| Vouchers.VouchersNeverRepeat | internal/store/postgres/migrations/006_journal_entries.sql:18 | in every reachable state the voucher numbers of a period are distinct |
| Vouchers.OnlyTheNextFits | internal/store/postgres/journal.go:207-216 | a stale count is refused; only the number after the last row gets in |
| Vouchers.GeneratedNumbersHaveNoGaps | internal/store/postgres/journal.go:207-216 | under any interleaving, generated numbers of a period are 1 to n in insertion order, n being its row count |
| Vouchers.JamsExactly | internal/service/service.go:482-488 | calls that do not overlap can use up an open period's generated numbers if and only if some row's number is ahead of the row count |
| Vouchers.BehindNeverJams | internal/store/postgres/journal.go:207-216 | with no row ahead, no later history of calls that do not overlap and take generated numbers jams the period |
| Vouchers.ChosenNumberAhead | internal/service/service.go:482-488 | a new row's number puts its period ahead if and only if it is printed for a count beyond the next one |
| Vouchers.JamIsPermanent | internal/service/service.go:482-488 | over every later history of calls that do not overlap and take generated numbers the jammed period gets no row, by drafts, approvals or reversals |
| Jams.ReachableIsDrawn | internal/service/service.go:421-445 | in every reachable state the numbers that transactions in flight carry were drawn from a count, so none is ahead |
| Jams.UnprimedNeverJams | internal/store/postgres/journal.go:207-216 | while no row, and no creation in flight or arriving, has a number ahead of the count, no interleaving ever jams the period |
| Jams.JamsAtOnceExactly | internal/service/service.go:482-503 | from every reachable state, requests that overlap and bring no number ahead can jam an open period if and only if some row has, or some creation in flight can write, such a number |
| Jams.AddsRowExactly | internal/store/postgres/journal.go:24-57 | a step adds one row to a period exactly if it inserts a draft, reverses an entry not yet voided, or approves a pending invoice there under a number that is free, and otherwise none; in a jammed period that is never the next number |
| Jams.JamEndsExactly | internal/store/postgres/journal.go:207-216 | a step ends a jam if and only if it adds a row and the number after the next is neither in use nor its own |
| Jams.JamCanEnd | internal/service/service.go:482-503 | in every open period with no row ahead, a draft that has drawn its number and one with the number after it jam the period, and the first, finishing, ends the jam with no request arriving |
| Vouchers.UpdateDraftNeverSucceeds | internal/service/service.go:1239-1277 | it always fails; an existing draft is voided and nothing replaces it |
| Transitions.StepMovesInvoices | internal/store/postgres/invoice.go:131-149 | every step leaves the invoices alone or makes one of four moves; an approval adds exactly one balanced draft totalling gross |
| Transitions.ApprovedAtMostOnce | internal/service/service.go:421-445 | under any interleaving an invoice is approved once if it is now approved or posted and never otherwise, and approved or posted amounts are sound |
| Transitions.StepMovesEntries | internal/store/postgres/journal.go:140-179 | an entry's status only moves from draft to posted and from either to voided |
| Transitions.ReversalIsAllOrNothing | internal/service/service.go:626-653 | a transactional void makes all three writes, with a mirror that nets to zero, or none |
| Transitions.PostedToVoided | internal/service/service.go:617-653 | if no draft sent for creation has a balanced proper prefix, a posted entry is voided with exactly one mirror, or by a late plain void that adds nothing |
| TornDrafts.IndivisibleExactly | internal/service/service.go:617-653 | drafts with given lines keep that under every interleaving if and only if the lines, when they balance, have no balanced proper prefix |
| TornDrafts.DividedLosesMirror | internal/service/service.go:605-640 | every divisible balanced list, in every state that takes it, can be voided by a reversal that is not its mirror |
| Transitions.VoidedAtMostOnce | internal/store/postgres/journal.go:163-179 | racing voids move a posted entry to voided at most once |
| Transitions.StepLinkedExactly | internal/service/service.go:583-643 | a step leaves every posted invoice with a posted entry of its own if and only if it is not a late void of the only one |
| Transitions.LinkedExactly | internal/service/service.go:583-643 | along every interleaving posted invoices keep such an entry, through any chain of voids, if and only if no step is such a void |
| InvoiceNumbers.InvoiceNumbersNeverRepeat | internal/store/postgres/migrations/003_invoices.sql:33 | in every reachable state an entity and book have one row for each invoice number |
| InvoiceNumbers.NumberIsTakenForever | internal/store/postgres/invoice.go:114-129 | under any interleaving a row keeps its invoice number and stays the only row with it |
| InvoiceNumbers.ResendingFindsTheRow | internal/service/service.go:319-367 | after any interleaving, sending a number again changes nothing and answers the first row exactly if the invoice is acceptable and its period open |
| Histories.ApplyKeepsRest | internal/service/service.go:163-263 | between calls no period is closing and no closed or locked period holds a draft |
| Histories.ApplyFreezes | internal/service/service.go:389-653 | no call adds or changes a journal row of a closed or locked period |
| Histories.ApplyKeepsClosed | internal/service/service.go:265-293 | only ReopenPeriod lifts a closed period and nothing lifts a locked one |
| Histories.ClosedUntilReopened | internal/service/service.go:234-293 | until reopened a closed period keeps its entries and posted lines over every history |
| Histories.LockedForever | internal/service/service.go:280-293 | a locked period keeps its status, entries and posted lines over every history |
| FrozenPeriods.ReachableIsRooted | internal/service/service.go:389-653 | in every reachable state what a request in flight carries comes from rows that exist |
| FrozenPeriods.QuiescedForever | internal/service/service.go:389-653 | from a quiesced locked period on, no interleaving changes or adds a row of it |
| FrozenPeriods.QuiescedTrialBalance | internal/store/postgres/journal.go:181-205 | nor its posted lines |
| FrozenPeriods.LiveWrites | internal/service/service.go:538-653 | each task that is past its period check with a write nothing refuses does change or add a row of the locked period |
| FrozenPeriods.FrozenExactly | internal/service/service.go:280-293 | under every interleaving the rows of a locked period are frozen if and only if it has no draft and no such task is in flight |
| Histories.OnlyOpenWorkBlocksClosing | internal/service/service.go:199-220 | the trial balance check never blocks closing; only pending invoices and drafts do |
| Histories.VatListChangesExactly | internal/service/service.go:583-593 | the posted invoices of a period change exactly when a draft sourced from an approved invoice of it is posted |
| Histories.LockedVatListMoves | internal/service/service.go:583-593 | posting in an open period can add an invoice to the VAT list of a closed or locked one |
| Histories.HistoryKeepsLinked | internal/service/service.go:583-643 | over every history each posted invoice has a posted entry that came from it |
| Histories.BatchPostsPrefix | internal/service/service.go:1279-1289 | exactly the ids before the first failure are posted, every other entry is unchanged, and that id still fails the same way |
| Histories.BatchIsIdempotent | internal/service/service.go:1279-1289 | repeating a successful batch changes nothing and succeeds |
| VoidEffects.VoidMovesTwice | internal/service/service.go:632-640 | each account's net moves by minus twice the voided entry's |
| VoidEffects.VoidingTheReversalRestores | internal/service/service.go:598-653 | voiding an entry and then its reversal restores every debit and credit column |
| VoidEffects.VoidIsLocal | internal/service/service.go:598-653 | a void leaves the posted lines of every other period alone |
| Races.LateVoidLosesEntry | internal/service/service.go:617-624 | from every state where a draft can be posted, a racing void voids it posted, with no reversal |
| Races.LateVoidUnlinks | internal/service/service.go:583-624 | if that draft came from an approved invoice without posted entries, the invoice is posted and has none |
| Races.FourRequestsUnlink | internal/service/service.go:583-624 | creating, approving, posting and voiding any sound invoice of an open period can end so from an empty ledger |
| Races.LockedPeriodStillVoided | internal/service/service.go:610-653 | from every state where an entry can be voided and its period closed, the void is still live after the lock and lands |
| TrialBalance.TrialBalance | internal/service/service.go:657-698 | one row per account, ordered by code, each the sum of its lines; totals are the ungrouped sums; balanced exactly if the lines balance |
| Service.Service.AccountBalance | internal/service/service.go:700-721 | the trial balance rows of the period, each ending on at most one side; ending debit and credit agree exactly if the posted lines balance, and do in all tables that clean drafts can lead to |
| Grouping.GroupsAddUp | internal/service/service.go:668-696 | the groups of a map add up to the ungrouped sum in any iteration order |
| Grouping.StringLeExactly | internal/store/postgres/journal.go:181-205 | the code order: a prefix first, else the smaller character where the two first differ |
| VatReport.VATSummary | internal/service/service.go:732-746 | counts and sums per direction |
| VatReport.VATCrossCheck | internal/service/service.go:1487-1541 | every row is the group of one direction and one whole percent nearest to tax over net, every invoice has its row, no output rate comes twice; totals by rate equal the plain totals; warnings are the input rates without an output rate |
| VatReport.VATReturn | internal/service/service.go:1543-1585 | numbered schedule rows state these groups, one for the rate of each invoice; schedule sums, main table and summary agree |
| VatReport.RateIsNearest | internal/service/service.go:1500-1503 | each invoice has exactly one rate, the whole percent nearest to tax over net |
| VatReport.OneInvoiceRow | internal/service/service.go:1499-1515 | an only invoice makes a row of its own amounts |
| VatReport.RowsAreNear | internal/service/service.go:1499-1515 | the sums of a row give its rate to within half a percent |
| VatReport.SchedulesAreNear | internal/service/service.go:1551-1573 | so do those of a schedule row |
| VatReport.WholeRatesHaveRows | internal/service/service.go:1499-1515 | an invoice taxed at a whole percent has a row of exactly that rate and belongs to no other |
| VatReport.RatesAreInvoiced | internal/service/service.go:1517-1539 | a rate is on a side exactly if an invoice of that side has it |
| VatReport.CountsAddUp | internal/service/service.go:732-746 | every invoice counts once, on the side of its direction |
| VatReport.ReturnAgreesWithEngine | internal/service/service.go:1574-1583 | the main table is the engine's result for a general taxpayer exactly when output tax is at least input tax |
| VatReport.ReachableReturnsAgree | internal/store/postgres/invoice.go:151-179 | in every reachable state net plus tax is gross in the summary, and that agreement applies to it |
| VatReport.DraftBooksVat | internal/service/service.go:947-980 | the draft of an invoice carries exactly its tax on the tax accounts if and only if its expense account is no tax account or takes nothing |
| VatReport.JournalAgreesWithSummary | internal/service/service.go:956-980 | the tax accounts of the drafts of any such invoices equal their VAT summary |
| VatLedger.CallAgreesExactly | internal/service/service.go:538-653 | from agreement, a call leaves posted lines and VAT summary agreeing if and only if what it moves on each tax account is what it moves in the taxes of the posted invoices |
| VatLedger.HistoryAgreesExactly | internal/service/service.go:538-653 | along every history they agree after each call if and only if no call breaks it |
| VatLedger.TypedDraftAgreesExactly | internal/service/service.go:460-596 | in every open period that takes it, creating and posting a typed draft keeps the agreement if and only if the draft has no net on the tax accounts |
| VatLedger.TypedVatBreaks | internal/service/service.go:460-596 | one cent of input tax typed against the bank breaks it |
| VatLedger.HistoryBooksVat | internal/service/service.go:583-593 | over every history without voids, without typed drafts that book VAT or name an invoice, and without invoices whose expense account is a tax account, posted lines and VAT summary agree throughout |
| VatLedger.VoidAgreesExactly | internal/service/service.go:626-653 | a void of a posted entry breaks that if and only if the entry carries VAT |
| Tax.BurdenIsBounded | internal/engine/tax.go:46-83 | nothing is negative and the total is 112% of the payable tax up to rounding |
| Tax.LocationOnlyLowersUrbanTax | internal/engine/tax.go:86-95 | outside a city only the urban tax differs and is not higher |
| Tax.BurdenIsMonotone | internal/engine/tax.go:46-83 | more payable tax never gives a smaller total |
| Tax.PayableIs | internal/engine/tax.go:46-71 | the refusals, output less input tax but not below zero, and for a small taxpayer the nearest cent to sales times the levy rate, 3% by default |
| Tax.SurchargesAre | internal/engine/tax.go:73-122 | each surcharge is the nearest cent to its percentage of the tax payable, by location, and the total is the sum |
| Money.Round | internal/engine/tax.go:124-126 | the nearest whole cent, halves away from zero |
| Money.RoundIsNearest | internal/engine/tax.go:124-126 | there is exactly one nearest cent, and it is that |
| Report.MatchSelector | internal/engine/report.go:287-309 | direction, exclusions and prefixes as declared |
| Report.SelectorByParts | internal/engine/report.go:287-309 | what a direction, one exclusion more, one prefix more, and no prefixes do to a selector |
| Report.Accumulate | internal/engine/report.go:126-136 | the nested loops give, per line code, the sum over matching pairs of a line and a mapping |
| Report.EvalFormula | internal/engine/report.go:311-351 | left-to-right value, with the first unsupported operator as the error |
| Report.EvalByParts | internal/engine/report.go:311-351 | nothing is zero, one token its amount or number, an operator and operand more add, subtract or fail, a lone operator does nothing |
| Report.SubtotalPass | internal/engine/report.go:138-152 | the single pass in display order |
| Report.PassSolvesEquations | internal/engine/report.go:143-152 | in a well ordered mapping list every subtotal equals its own formula over the final amounts |
| Report.PassIsTheOnlySolution | internal/engine/report.go:143-152 | no other assignment solves the subtotal equations |
| Report.StatementIgnoresLineOrder | internal/engine/report.go:121-199 | permuting the journal lines changes nothing |
| Report.StatementsAdd | internal/engine/report.go:121-199 | without numbers in formulas, statements of two line lists add up line by line |
| ReportBuilder.ReportBuilder.NewReportBuilder | internal/engine/report.go:103-118 | none without mappings; otherwise the caller's list is sorted by display order |
| ReportBuilder.ReportBuilder.BuildProfitStatement | internal/engine/report.go:121-199 | one line per mapping with its evaluated amount, and the named fields |
| ReportBuilder.ReportBuilder.BuildBalanceSheet | internal/engine/report.go:202-285 | exactly the lines whose code has a section, in display order, in that section, and the four named totals |
| ReportBuilder.AssetCodes | internal/engine/report.go:241-268 | the eight codes shown as assets |
| ReportBuilder.LiabilityCodes | internal/engine/report.go:241-268 | the seven codes shown as liabilities |
| ReportBuilder.EquityCodes | internal/engine/report.go:241-268 | the six codes shown as equity |
| ReportBuilder.NamesAre | internal/engine/report.go:165-196 | which codes fill a field of the profit statement, and which a total of the sheet |
| ReportBuilder.StatementSatisfiesFormulas | internal/engine/report.go:143-172 | each computed subtotal line shows its formula over the statement |
| SeededProfit.SeededIsWellOrdered | internal/store/postgres/migrations/018_seed_report_mappings.sql:6-18 | the seeded formulas mention only leaves and earlier subtotals |
| SeededProfit.SeededNetProfit | internal/store/postgres/migrations/018_seed_report_mappings.sql:6-18 | for every line list net profit is the weighted sum of the line amounts |
| SeededProfit.SeededOverlaps | internal/store/postgres/migrations/018_seed_report_mappings.sql:6-18 | weights by account: tax and non-operating expense 0, investment and non-operating income 2, sales 1, costs -1 |
| SeededProfit.SurchargeFieldStaysZero | internal/engine/report.go:154-199 | for every line list, no statement built from the seeded mappings fills the surcharge field, and its fields miss operating profit by the amounts of the seeded surcharge line |
| Sheet.LeavesAddUp | internal/engine/report.go:207-217 | leaves without a common prefix add up every amount on their accounts, each line once |
| SeededSheet.SheetIsAdditive | internal/store/postgres/migrations/018_seed_report_mappings.sql:25-53 | the seeded codes differ and every formula adds earlier lines |
| SeededSheet.SheetTotals | internal/store/postgres/migrations/018_seed_report_mappings.sql:25-53 | for every line list total assets, and total liabilities and equity, add up all amounts on the accounts with the listed prefixes, debits and credits alike |
| SeededSheet.SheetShows | internal/engine/report.go:241-268 | whatever the amounts, the three sections of the sheet hold these twelve of the 25 seeded lines, in this order, and no other |
| SeededSheet.ShownLinesFallShort | internal/engine/report.go:202-285 | for every line list total assets and total liabilities exceed the lines shown under them by all amounts on the accounts of the hidden lines |
| VoidedStatement.VoidLeavesStatement | internal/service/service.go:1378-1389 | under mappings without direction, voiding a posted entry changes no statement of its period |
| VoidedStatement.ReportLineShows | internal/service/service.go:1378-1389 | the builder is given each posted line with its account, direction, and the column the direction names |
| VoidedStatement.SeededProfitIgnoresVoids | internal/store/postgres/migrations/018_seed_report_mappings.sql:6-18 | the seeded profit statement, its net profit included, is the same before and after a void |
| Pit.QuickDeductionIsMarginal | internal/engine/pit.go:20-37 | rate times income minus quick deduction is the sum of marginal rates over the slices |
| Pit.TaxIsMonotone | internal/engine/pit.go:112-121 | after rounding, tax and income after tax never fall with income, and tax is between 0 and income |
| Pit.WithheldIsLargest | internal/engine/pit.go:81-126 | over any months the tax withheld is the largest accumulated tax so far |
| Pit.WithheldIsLast | internal/engine/pit.go:81-126 | it is the last accumulated tax exactly when none before was higher |
| Pit.RisingIncomeIsSettled | internal/engine/pit.go:107-126 | while the salary left after the deductions ends highest, withholding collects the nearest cent to what the bands take from it |
| Pit.IncomeIsSalaryLessDeductions | internal/engine/pit.go:103-115 | taxable income plus 5000 yuan a month, special, additional and other deductions is the salary, or zero if they exceed it |
| Pit.CentByCent | internal/engine/pit.go:103-115 | one cent more of any deduction takes one cent off a taxable income |
| Pit.EachItemAdds | internal/engine/pit.go:160-188 | each child, infant, course and loan adds its own monthly amount |
| Pit.RentAdds | internal/engine/pit.go:160-188 | rent adds by its tier |
| Pit.ElderlyAdds | internal/engine/pit.go:160-188 | support of the elderly adds 3000 for an only child, else its shared amount up to 1500 |
| Pit.RefusedExactly | internal/engine/pit.go:89-101 | the inputs that are refused, by the first rule they break |
| Pit.OutputFollows | internal/engine/pit.go:117-126 | rate and quick deduction give the tax by bands, the accumulated tax is its nearest cent, the month's what of it is not prepaid |
| Pit.RateOfBand | internal/engine/pit.go:20-37 | the rate is that of the band in which the income lies |
| Cit.PrepaidIsLargest | internal/engine/cit.go:28-43 | over any quarters the prepayments add up to the largest cumulative tax so far |
| Cit.YearIsSettled | internal/engine/cit.go:46-86 | prepayments plus settlement equal the annual tax; a refund is due exactly if a quarter's tax exceeded it |
| Cit.SettledIncome | internal/engine/cit.go:51-58 | the refusal, and taxable income as profit after adjustments or nothing |
| Cit.SettlementPays | internal/engine/cit.go:60-105 | a small enterprise up to three million yuan pays the nearest cent to 5% of the first million and 10% of the rest, everyone else the nearest cent to the rate |
| Cit.DeductionIsDifference | internal/engine/cit.go:69-73 | the deduction is what the tax payable falls short of the ordinary tax |
| Cit.QuarterRateDeduction | internal/service/service.go:1750-1755 | at 25% payable and deduction add up to the ordinary tax, and there is a deduction exactly for small enterprises with two cents to three million yuan |
| Cit.QuarterPays | internal/engine/cit.go:28-43 | a quarter's cumulative tax is the nearest cent to the rate, and it asks for what is not yet paid |
| Cit.RisingProfitOwesNoRefund | internal/engine/cit.go:46-86 | no refund at the ordinary rate if taxable income ends highest |
| Cit.SmallProfitKeepsMore | internal/engine/cit.go:90-106 | up to three million yuan earning more leaves more after tax |
| Cit.SmallProfitCliff | internal/engine/cit.go:90-106 | above it, exactly incomes up to 3666666.66 leave less than three million does |
| Risk.SpansExact | internal/engine/risk.go:19-60 | the reported spans are exactly the maximal runs of at least two, in order, disjoint and not touching |
| Risk.DetectZeroFiling | internal/engine/risk.go:19-60 | exactly the maximal runs of at least two periods filed with no tax payable, in sorted order, have a finding with count and members, danger from three on |
| Risk.DetectConsecutiveLosses | internal/engine/risk.go:72-111 | sorts the caller's years in place and has such a finding for exactly the maximal runs of years with a negative profit |
| Idempotency.Handler.SaveRecord | internal/store/postgres/idempotency.go:37-44 | insert only; an existing record stays |
| Idempotency.Handler.ExecuteRequest | internal/api/handler.go:296-377 | ledger, records and response are those of looking up, executing and saving |
| Idempotency.HandleAnswers | internal/api/handler.go:296-377 | by case: no key needed, key missing, first use with what is recorded, and the answer from the record or the conflict |
| Idempotency.RecordsLast | internal/store/postgres/idempotency.go:37-44 | a saved record never changes over any history |
| Idempotency.ExecutesAtMostOnce | internal/api/handler.go:302-333 | each key executes once if it gains a record and never otherwise |
| Idempotency.RetryAnswersTheSame | internal/api/handler.go:310-331 | any time later the key answers with the first result, or a conflict for another input hash, and changes nothing |
| Idempotency.RetriesChangeNothing | internal/api/handler.go:302-367 | ledger and records are those of the history with all retries left out |
| Overlaps.AloneIsHandled | internal/api/handler.go:302-367 | a request's lookup, execution and save with nothing in between add up to handling it |
| Overlaps.ExecutionsAreMisses | internal/api/handler.go:302-367 | over every interleaving a key executes once for each lookup that found no record, except those still to execute |
| Overlaps.NoMissAfterSave | internal/store/postgres/idempotency.go:37-44 | every such lookup comes before the key's first save |
| Overlaps.ExecutesTwiceExactly | internal/api/handler.go:310-367 | with none left to execute, a key has executed more than once if and only if a second such lookup came before its first save |
| Overlaps.OneAtATimeExecutesOnce | internal/api/handler.go:302-367 | if each request of a key arrives only after the earlier ones are answered, the key executes at most once beside any requests of other keys, and exactly once if it was new, was asked for, and all are answered |
| Overlaps.OverlappingRequestsBothExecute | internal/api/handler.go:310-367 | from every state, two requests in step both execute and the outcome saved first is kept |

## Left out

- Vouchers.GeneratedNumbersHaveNoGaps: requires that callers choose no voucher number in the period; chosen numbers can leave gaps, and Vouchers.JamsExactly and Jams.JamsAtOnceExactly say which of them jam it.
- VatLedger.HistoryBooksVat: requires that nothing is voided, that no typed draft books VAT or names an invoice, and that no invoice has a tax account as its expense account; it is the corollary whose conditions can be read off the requests alone, and VatLedger.HistoryAgreesExactly says for every history when the agreement holds.
- VatReport.JournalAgreesWithSummary: requires invoices whose own draft books their tax; VatReport.DraftBooksVat says exactly which these are.
- Service.Service.BuildJournalDraft: account names and codes that the chart of accounts would override are the fallback ones, and the expense account that seller and type keywords choose is a field of the invoice.
- Service.Service.CreateInvoiceDraft: the pattern checks of numbers and tax ids are one parameter.
- Report.StatementsAdd: requires formulas without numbers, because a number would be added once per statement.
- The separate store objects are part of the service object, and a rollback restores the tables as they were when the transaction began.
- The branches without a database, failing queries, ignored store errors, and stale answers read outside a transaction.
- Timestamps, summaries, entry dates, line numbers, account ids, currency and auxiliary data of rows.
- UpdateInvoiceDraft, electronic invoice import, red-letter invoices, verification and usage status.
- Formula numbers with more than two decimals, account codes that read as numbers in a formula, and rounding inside sums, which is exact in cents.
- The nil builder's error, parent line codes and labels.
- The reported effective rate of corporate income tax, the small-scale exemption, formula texts, stamp tax, tax adjustments.
- Ratio and threshold risk rules, risk scores, consistency tolerances, three-way match, exports.
- Routing, authorisation, audit log, capability catalogue; executing a capability is an arbitrary deterministic step, and a replay answers with the stored record rather than its encoding.
